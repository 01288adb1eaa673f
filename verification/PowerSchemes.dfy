/** OSWindows::setPowerSchemes (src/Device/OS/Windows/OSWindows.cpp): bring the operating
    system's power schemes in line with a request. */
module PowerSchemes {
  import opened Basics
  import opened PowerSystem
  import opened SchemeUpdate

  type Request = QMap<PowerScheme>

  /** The duplication base: the first installed scheme that is not to be deleted. */
  function BaseOf(request: Request, installed: GuidMap): Guid {
    if request == [] then NO_GUID
    else if !request[0].1.deleteFlag && request[0].0 in installed then installed[request[0].0]
    else BaseOf(request[1..], installed)
  }

  /** Entry i is kept, its scheme installed, and no earlier entry is both. */
  ghost predicate FirstInstalled(request: Request, installed: GuidMap, i: nat)
    requires i < |request|
  {
    && !request[i].1.deleteFlag && request[i].0 in installed
    && forall j :: 0 <= j < i ==> request[j].1.deleteFlag || request[j].0 !in installed
  }

  /** The base is the scheme of the first such entry, and there is none without such an entry. */
  lemma {:induction false} BaseIsFirst(request: Request, installed: GuidMap)
    ensures forall i :: 0 <= i < |request| && FirstInstalled(request, installed, i) ==>
              BaseOf(request, installed) == installed[request[i].0]
    ensures (forall i :: 0 <= i < |request| ==> !FirstInstalled(request, installed, i)) ==>
              BaseOf(request, installed) == NO_GUID
  {
    if request != [] {
      var rest := request[1..];
      BaseIsFirst(rest, installed);
      if request[0].1.deleteFlag || request[0].0 !in installed {
        forall i | 0 <= i < |rest|
          ensures FirstInstalled(rest, installed, i) <==> FirstInstalled(request, installed, i + 1)
        {
          FirstLater(request, installed, i);
        }
        if forall i :: 0 <= i < |request| ==> !FirstInstalled(request, installed, i) {
          forall i | 0 <= i < |rest| ensures !FirstInstalled(rest, installed, i) {
            assert !FirstInstalled(request, installed, i + 1);
          }
        }
        forall i | 0 <= i < |request| && FirstInstalled(request, installed, i)
          ensures BaseOf(request, installed) == installed[request[i].0]
        {
          assert FirstInstalled(rest, installed, i - 1);
        }
      } else {
        assert FirstInstalled(request, installed, 0);
      }
    }
  }

  lemma FirstLater(request: Request, installed: GuidMap, i: nat)
    requires i + 1 < |request| && (request[0].1.deleteFlag || request[0].0 !in installed)
    ensures FirstInstalled(request[1..], installed, i) <==> FirstInstalled(request, installed, i + 1)
  {
    var rest := request[1..];
    assert forall j :: 0 <= j < i ==> rest[j] == request[j + 1];
    if FirstInstalled(rest, installed, i) {
      forall j | 0 <= j < i + 1 ensures request[j].1.deleteFlag || request[j].0 !in installed {
        if j > 0 { assert rest[j - 1] == request[j]; }
      }
    }
  }

  /** The GUIDs to delete, in request order. */
  function Doomed(request: Request, installed: GuidMap, activeScheme: string): seq<Guid> {
    if request == [] then []
    else
      var (key, scheme) := request[|request| - 1];
      Doomed(request[..|request| - 1], installed, activeScheme) +
      if scheme.deleteFlag && key in installed && key != activeScheme then [installed[key]] else []
  }

  lemma {:induction false} BaseIsKept(request: Request, installed: GuidMap)
    ensures BaseOf(request, installed) == NO_GUID ||
            exists i :: 0 <= i < |request| && !request[i].1.deleteFlag && request[i].0 in installed
                        && BaseOf(request, installed) == installed[request[i].0]
  {
    if request != [] && (request[0].1.deleteFlag || request[0].0 !in installed) {
      BaseIsKept(request[1..], installed);
      if BaseOf(request, installed) != NO_GUID {
        var i :| 0 <= i < |request| - 1 && !request[1..][i].1.deleteFlag && request[1..][i].0 in installed
                 && BaseOf(request[1..], installed) == installed[request[1..][i].0];
        assert request[i + 1] == request[1..][i];
      }
    }
  }

  /** Order and multiplicity: the list of two requests one after the other is the two lists one after the other. */
  lemma {:induction false} DoomedAppend(a: Request, b: Request, installed: GuidMap, activeScheme: string)
    ensures Doomed(a + b, installed, activeScheme) ==
            Doomed(a, installed, activeScheme) + Doomed(b, installed, activeScheme)
  {
    if b == [] {
      assert a + b == a;
    } else {
      assert (a + b)[..|a + b| - 1] == a + b[..|b| - 1];
      DoomedAppend(a, b[..|b| - 1], installed, activeScheme);
    }
  }

  lemma {:induction false} DoomedAre(request: Request, installed: GuidMap, activeScheme: string)
    ensures forall g :: g in Doomed(request, installed, activeScheme) <==>
              exists i :: 0 <= i < |request| && request[i].1.deleteFlag && request[i].0 in installed
                          && request[i].0 != activeScheme && g == installed[request[i].0]
  {
    if request != [] {
      var n := |request| - 1;
      var rest := request[..n];
      DoomedAre(rest, installed, activeScheme);
      forall g
        ensures g in Doomed(request, installed, activeScheme) <==>
          exists i :: 0 <= i < |request| && request[i].1.deleteFlag && request[i].0 in installed
                      && request[i].0 != activeScheme && g == installed[request[i].0]
      {
        if g in Doomed(rest, installed, activeScheme) {
          var i :| 0 <= i < n && rest[i].1.deleteFlag && rest[i].0 in installed
                   && rest[i].0 != activeScheme && g == installed[rest[i].0];
          assert request[i] == rest[i];
        }
        if i :| 0 <= i < n && request[i].1.deleteFlag && request[i].0 in installed
                && request[i].0 != activeScheme && g == installed[request[i].0] {
          assert rest[i] == request[i];
        }
      }
    }
  }

  /** No scheme the request keeps, activates, creates or duplicates from is in the delete list. */
  lemma DoomedSpares(request: Request, installed: GuidMap, activeScheme: string, guidMap: GuidMap,
                     schemes: Store, key: string)
    requires DistinctKeys(request) && GoodMap(guidMap, schemes)
    requires forall k :: k in installed ==> k in guidMap && guidMap[k] == installed[k]
    requires key in guidMap
    requires key == activeScheme || key !in installed ||
             exists i :: 0 <= i < |request| && request[i].0 == key && !request[i].1.deleteFlag
    ensures guidMap[key] !in Doomed(request, installed, activeScheme)
  {
    DoomedAre(request, installed, activeScheme);
  }

  /** The calls before the activation: duplicates of one base under GUIDs that are new and not in the delete
      list, names for such duplicates, and work on schemes outside the delete list. */
  ghost predicate SafeCalls(calls: seq<Call>, base: Guid, doomed: seq<Guid>, before: Store) {
    forall c :: c in calls ==>
      match c
      case CreateAccess(_) => true
      case Duplicate(source, copy, _) => source == base && base.data1 != 0 && copy !in before && copy !in doomed
      case Rename(g, _, _) => g !in before && g !in doomed
      case Activate(_, _) => false
      case Delete(_, _) => false
      case _ => c.guid !in doomed
  }

  predicate Keeps(request: Request, i: nat)
    requires i < |request|
  {
    !request[i].1.deleteFlag
  }

  ghost predicate KeptAmong(request: Request, n: nat, key: string)
    requires n <= |request|
  {
    exists i :: 0 <= i < n && Keeps(request, i) && request[i].0 == key
  }

  // ---------- what holds between two schemes of the request ----------

  datatype Phase = Phase(guidMap: GuidMap, schemes: Store, calls: seq<Call>, errors: set<DError>)

  /** One kept entry has been handled. */
  ghost predicate Step(api: PowerApi, entry: (string, PowerScheme), base: Guid, p: Phase, q: Phase, more: seq<Call>,
                       errs: set<DError>)
  {
    && Updated(api, entry, p.guidMap, p.schemes, q.guidMap, q.schemes, more)
    && Told(api, entry, p.guidMap, q.guidMap, q.schemes, more, errs)
    && Handled(api, entry, entry.0 in p.guidMap, q.guidMap, more)
    && CallsFor(more, base, p.schemes, q.guidMap, entry.0)
    && q.calls == p.calls + more && q.errors == p.errors + errs
  }

  /** The GUID map extends the installed one by fresh duplicates for kept schemes. */
  ghost predicate MapInv(request: Request, n: nat, installed: GuidMap, before: Store, p: Phase)
    requires n <= |request|
  {
    && GoodMap(p.guidMap, p.schemes)
    && before.Keys <= p.schemes.Keys
    && (forall k :: k in installed ==> k in p.guidMap && p.guidMap[k] == installed[k])
    && (forall k :: k in p.guidMap && k !in installed ==> p.guidMap[k] !in before && KeptAmong(request, n, k))
  }

  /** No scheme has appeared but those of the map and the duplicates left without their name. */
  ghost predicate KeysInv(before: Store, p: Phase) {
    && p.schemes.Keys == before.Keys + p.guidMap.Values + Unnamed(p.calls)
    && Unnamed(p.calls) !! before.Keys + p.guidMap.Values
  }

  /** The kept entries, by number, that could not be created. */
  ghost function Missing(request: Request, n: nat, guidMap: GuidMap): set<nat>
    requires n <= |request|
  {
    set i: nat | i < n && Keeps(request, i) && request[i].0 !in guidMap
  }

  /** A scheme that no kept entry of the request names is as it was. */
  ghost predicate FrameInv(request: Request, n: nat, installed: GuidMap, before: Store,
                           schemes: Store)
    requires n <= |request|
  {
    forall g :: g in before ==>
      || (g in schemes && schemes[g] == before[g])
      || exists i :: 0 <= i < n && Keeps(request, i) && request[i].0 in installed && installed[request[i].0] == g
  }

  ghost predicate EntryDone(api: PowerApi, entry: (string, PowerScheme), installed: GuidMap,
                            guidMap: GuidMap, schemes: Store)
  {
    && entry.0 in guidMap && guidMap[entry.0] in schemes
    && Settled(api, schemes[guidMap[entry.0]], entry.0 in installed, guidMap[entry.0], entry.1)
  }

  ghost predicate DoneInv(api: PowerApi, request: Request, n: nat, installed: GuidMap,
                          guidMap: GuidMap, schemes: Store)
    requires n <= |request|
  {
    forall i :: 0 <= i < n && Keeps(request, i) ==> EntryDone(api, request[i], installed, guidMap, schemes)
  }

  ghost predicate AllCreated(request: Request, n: nat, guidMap: GuidMap)
    requires n <= |request|
  {
    forall i :: 0 <= i < n && Keeps(request, i) ==> request[i].0 in guidMap
  }

  /** Some entry that cannot be written was reached. */
  ghost predicate SomeRefused(api: PowerApi, request: Request, n: nat, installed: GuidMap, guidMap: GuidMap,
                              calls: seq<Call>)
    requires n <= |request|
  {
    exists i :: 0 <= i < n && Keeps(request, i) && Refused(api, request[i], request[i].0 in installed, guidMap, calls)
  }

  /** The errors are those of the failed calls, a creation error for a kept scheme missing from the map, and a
      setting error for an entry that cannot be written; nothing else. */
  ghost predicate ToldInv(api: PowerApi, request: Request, n: nat, installed: GuidMap, p: Phase)
    requires n <= |request|
  {
    && p.errors == ErrorsOf(p.calls)
         + (if AllCreated(request, n, p.guidMap) then {} else {W_PWR_CREATE_SCHEMES})
         + (if SomeRefused(api, request, n, installed, p.guidMap, p.calls) then {W_PWR_SCHEME} else {})
    && (AllCreated(request, n, p.guidMap) ==> W_PWR_CREATE_SCHEMES !in p.errors)
  }

  /** Only kept schemes had their access checked. */
  ghost predicate AccessInv(request: Request, n: nat, p: Phase)
    requires n <= |request|
  {
    forall g :: Access(g, true) in p.calls ==>
      exists i :: 0 <= i < n && Keeps(request, i) && request[i].0 in p.guidMap && p.guidMap[request[i].0] == g
  }

  ghost predicate HandledInv(api: PowerApi, request: Request, n: nat, installed: GuidMap, p: Phase)
    requires n <= |request|
  {
    forall i :: 0 <= i < n && Keeps(request, i) ==>
      Handled(api, request[i], request[i].0 in installed, p.guidMap, p.calls)
  }

  ghost predicate Progress(api: PowerApi, request: Request, n: nat, installed: GuidMap, before: Store, p: Phase) {
    && n <= |request|
    && MapInv(request, n, installed, before, p)
    && KeysInv(before, p)
    && |Unnamed(p.calls)| <= |Missing(request, n, p.guidMap)|
    && FrameInv(request, n, installed, before, p.schemes)
    && ToldInv(api, request, n, installed, p)
    && AccessInv(request, n, p)
    && HandledInv(api, request, n, installed, p)
    && (p.errors == {} ==> DoneInv(api, request, n, installed, p.guidMap, p.schemes))
  }

  lemma NotYetKept(request: Request, n: nat)
    requires n < |request| && DistinctKeys(request)
    ensures !KeptAmong(request, n, request[n].0)
  {
    assert forall i :: 0 <= i < n ==> request[i].0 != request[n].0;
  }

  /** A key of the map before the step keeps its GUID. */
  lemma KeyStays(api: PowerApi, entry: (string, PowerScheme), base: Guid, p: Phase, q: Phase, more: seq<Call>,
                 errs: set<DError>)
    requires Step(api, entry, base, p, q, more, errs)
    ensures forall k :: k in p.guidMap ==> k in q.guidMap && q.guidMap[k] == p.guidMap[k]
    ensures forall k :: k in q.guidMap && k != entry.0 ==> k in p.guidMap
    ensures GoodMap(q.guidMap, q.schemes) && q.calls == p.calls + more
  {
  }

  lemma StepMap(api: PowerApi, request: Request, n: nat, installed: GuidMap, before: Store, base: Guid,
                p: Phase, q: Phase, more: seq<Call>, errs: set<DError>)
    requires n < |request| && DistinctKeys(request) && Keeps(request, n)
    requires MapInv(request, n, installed, before, p) && Step(api, request[n], base, p, q, more, errs)
    ensures MapInv(request, n + 1, installed, before, q)
  {
    forall k | k in q.guidMap && k !in installed
      ensures q.guidMap[k] !in before && KeptAmong(request, n + 1, k)
    {
      if k == request[n].0 && k !in p.guidMap {
        assert Keeps(request, n);
      } else {
        assert k in p.guidMap;
        var i :| 0 <= i < n && Keeps(request, i) && request[i].0 == k;
      }
    }
  }

  /** The schemes that one step can add. */
  lemma StepAdds(api: PowerApi, entry: (string, PowerScheme), base: Guid, p: Phase, q: Phase, more: seq<Call>,
                 errs: set<DError>)
    requires Step(api, entry, base, p, q, more, errs)
    ensures q.schemes.Keys == p.schemes.Keys + if entry.0 in q.guidMap then {q.guidMap[entry.0]} else Unnamed(more)
    ensures entry.0 in q.guidMap ==> Unnamed(more) == {}
    ensures forall g, h :: g in Unnamed(more) && h in Unnamed(more) ==> g == h && g !in p.schemes
    ensures entry.0 in q.guidMap && entry.0 !in p.guidMap ==>
      q.guidMap == p.guidMap[entry.0 := q.guidMap[entry.0]] && q.guidMap[entry.0] !in p.schemes
    ensures entry.0 in p.guidMap || entry.0 !in q.guidMap ==> q.guidMap == p.guidMap
    ensures Unnamed(q.calls) == Unnamed(p.calls) + Unnamed(more)
  {
    UnnamedAppend(p.calls, more);
  }

  lemma StepKeys(api: PowerApi, entry: (string, PowerScheme), before: Store, base: Guid,
                 p: Phase, q: Phase, more: seq<Call>, errs: set<DError>)
    requires GoodMap(p.guidMap, p.schemes) && KeysInv(before, p) && Step(api, entry, base, p, q, more, errs)
    ensures KeysInv(before, q)
  {
    hide Unnamed, Step;
    StepAdds(api, entry, base, p, q, more, errs);
    var key := entry.0;
    if key in q.guidMap && key !in p.guidMap {
      ValuesAdd(p.guidMap, key, q.guidMap[key]);
    } else if key in p.guidMap {
      assert p.guidMap[key] in p.guidMap.Values;
    }
  }

  lemma ValuesAdd(guidMap: GuidMap, key: string, g: Guid)
    requires key !in guidMap
    ensures guidMap[key := g].Values == guidMap.Values + {g}
  {
    var m := guidMap[key := g];
    forall h | h in guidMap.Values + {g} ensures h in m.Values {
      if h == g {
        assert m[key] == g;
      } else {
        var k :| k in guidMap && guidMap[k] == h;
        assert m[k] == h;
      }
    }
  }

  lemma StepMissing(request: Request, n: nat, guidMap: GuidMap, guidMap': GuidMap)
    requires n < |request| && DistinctKeys(request) && Keeps(request, n)
    requires forall k :: k != request[n].0 ==> (k in guidMap' <==> k in guidMap)
    ensures Missing(request, n + 1, guidMap') ==
            Missing(request, n, guidMap) + if request[n].0 in guidMap' then {} else {n}
    ensures n !in Missing(request, n, guidMap)
  {
    forall i: nat | i < n ensures i in Missing(request, n + 1, guidMap') <==> i in Missing(request, n, guidMap) {
      assert request[i].0 != request[n].0;
    }
  }

  lemma AtMostOne(s: set<Guid>)
    requires forall g, h :: g in s && h in s ==> g == h
    ensures |s| <= 1
  {
    if g :| g in s {
      assert s == {g};
    }
  }

  lemma SizeOfSum(a: set<Guid>, b: set<Guid>)
    ensures |a + b| <= |a| + |b|
  {
    assert a + b == a + (b - a);
  }

  lemma StepCount(api: PowerApi, request: Request, n: nat, base: Guid,
                  p: Phase, q: Phase, more: seq<Call>, errs: set<DError>)
    requires n < |request| && DistinctKeys(request) && Keeps(request, n)
    requires |Unnamed(p.calls)| <= |Missing(request, n, p.guidMap)|
    requires Step(api, request[n], base, p, q, more, errs)
    ensures |Unnamed(q.calls)| <= |Missing(request, n + 1, q.guidMap)|
  {
    hide *;
    StepAdds(api, request[n], base, p, q, more, errs);
    KeyStays(api, request[n], base, p, q, more, errs);
    StepMissing(request, n, p.guidMap, q.guidMap);
    AtMostOne(Unnamed(more));
    SizeOfSum(Unnamed(p.calls), Unnamed(more));
  }

  lemma StepFrame(api: PowerApi, request: Request, n: nat, installed: GuidMap, before: Store, base: Guid,
                  p: Phase, q: Phase, more: seq<Call>, errs: set<DError>)
    requires n < |request| && DistinctKeys(request) && Keeps(request, n)
    requires MapInv(request, n, installed, before, p) && FrameInv(request, n, installed, before, p.schemes)
    requires Step(api, request[n], base, p, q, more, errs)
    ensures FrameInv(request, n + 1, installed, before, q.schemes)
  {
    hide Unnamed, Told, Handled, CallsFor;
    var key := request[n].0;
    forall g | g in before && !(g in q.schemes && q.schemes[g] == before[g])
      ensures exists i :: 0 <= i < n + 1 && Keeps(request, i)
                          && request[i].0 in installed && installed[request[i].0] == g
    {
      if g in p.schemes && p.schemes[g] == before[g] {
        assert key in p.guidMap && p.guidMap[key] == g;
        assert key in installed;
        assert Keeps(request, n);
      } else {
        var i :| 0 <= i < n && Keeps(request, i) && request[i].0 in installed && installed[request[i].0] == g;
      }
    }
  }

  lemma StepDone(api: PowerApi, request: Request, n: nat, installed: GuidMap, before: Store, base: Guid,
                 p: Phase, q: Phase, more: seq<Call>, errs: set<DError>)
    requires n < |request| && DistinctKeys(request) && Keeps(request, n)
    requires MapInv(request, n, installed, before, p)
    requires DoneInv(api, request, n, installed, p.guidMap, p.schemes)
    requires Step(api, request[n], base, p, q, more, errs) && errs == {}
    ensures DoneInv(api, request, n + 1, installed, q.guidMap, q.schemes)
  {
    hide Unnamed, Handled, CallsFor, ErrorsOf, Refused, Settled;
    var key := request[n].0;
    assert key in q.guidMap;
    forall i | 0 <= i < n + 1 && Keeps(request, i)
      ensures EntryDone(api, request[i], installed, q.guidMap, q.schemes)
    {
      if i < n {
        var k := request[i].0;
        assert EntryDone(api, request[i], installed, p.guidMap, p.schemes);
        assert k != key;
        assert q.guidMap[k] == p.guidMap[k];
        assert q.schemes[p.guidMap[k]] == p.schemes[p.guidMap[k]];
      } else {
        NotYetKept(request, n);
        assert key in p.guidMap <==> key in installed;
      }
    }
  }

  lemma StepCreated(api: PowerApi, request: Request, n: nat, base: Guid, p: Phase, q: Phase, more: seq<Call>,
                    errs: set<DError>)
    requires n < |request| && DistinctKeys(request) && Keeps(request, n)
    requires Step(api, request[n], base, p, q, more, errs)
    ensures AllCreated(request, n + 1, q.guidMap) <==> AllCreated(request, n, p.guidMap) && request[n].0 in q.guidMap
  {
    KeyStays(api, request[n], base, p, q, more, errs);
    hide Step;
    assert Keeps(request, n);
    forall i | 0 <= i < n && Keeps(request, i)
      ensures request[i].0 in q.guidMap <==> request[i].0 in p.guidMap
    {
      assert request[i].0 != request[n].0;
    }
    if AllCreated(request, n, p.guidMap) && request[n].0 in q.guidMap {
      forall i | 0 <= i < n + 1 && Keeps(request, i) ensures request[i].0 in q.guidMap {
      }
    }
    if AllCreated(request, n + 1, q.guidMap) {
      forall i | 0 <= i < n && Keeps(request, i) ensures request[i].0 in p.guidMap {
        assert request[i].0 in q.guidMap;
      }
    }
  }

  lemma StepAccess(api: PowerApi, request: Request, n: nat, base: Guid, p: Phase, q: Phase, more: seq<Call>,
                   errs: set<DError>)
    requires n < |request| && Keeps(request, n) && AccessInv(request, n, p)
    requires Step(api, request[n], base, p, q, more, errs)
    ensures AccessInv(request, n + 1, q)
  {
    KeyStays(api, request[n], base, p, q, more, errs);
    hide Updated, Told, Handled;
    forall g | Access(g, true) in q.calls
      ensures exists i :: 0 <= i < n + 1 && Keeps(request, i) && request[i].0 in q.guidMap
                          && q.guidMap[request[i].0] == g
    {
      if Access(g, true) in p.calls {
        var i :| 0 <= i < n && Keeps(request, i) && request[i].0 in p.guidMap && p.guidMap[request[i].0] == g;
        assert q.guidMap[request[i].0] == g;
      } else {
        assert Access(g, true) in more;
        assert q.guidMap[request[n].0] == g && Keeps(request, n);
      }
    }
  }

  /** What was reached before stays so, and the step's own calls decide about its entry. */
  lemma StepRefused(api: PowerApi, request: Request, n: nat, installed: GuidMap, before: Store, base: Guid,
                    p: Phase, q: Phase, more: seq<Call>, errs: set<DError>, i: nat)
    requires i <= n < |request| && DistinctKeys(request) && Keeps(request, n)
    requires MapInv(request, n, installed, before, p) && AccessInv(request, n, p)
    requires Step(api, request[n], base, p, q, more, errs)
    ensures var was := request[i].0 in installed;
      Refused(api, request[i], was, q.guidMap, q.calls) <==>
        if i < n then Refused(api, request[i], was, p.guidMap, p.calls)
        else Refused(api, request[n], request[n].0 in p.guidMap, q.guidMap, more)
  {
    KeyStays(api, request[n], base, p, q, more, errs);
    NotYetKept(request, n);
    hide Updated, Told, Handled, SettingsPossible, KeptAmong;
    var key := request[i].0;
    if key in q.guidMap {
      var g := q.guidMap[key];
      if i < n {
        assert key != request[n].0;
        assert Access(g, true) !in more;
      } else {
        forall j | 0 <= j < n && request[j].0 in p.guidMap ensures p.guidMap[request[j].0] != g {
          assert request[j].0 != key;
        }
      }
    }
  }

  lemma StepTold(api: PowerApi, request: Request, n: nat, installed: GuidMap, before: Store, base: Guid,
                 p: Phase, q: Phase, more: seq<Call>, errs: set<DError>)
    requires n < |request| && DistinctKeys(request) && Keeps(request, n)
    requires MapInv(request, n, installed, before, p) && AccessInv(request, n, p)
    requires ToldInv(api, request, n, installed, p)
    requires Step(api, request[n], base, p, q, more, errs)
    ensures ToldInv(api, request, n + 1, installed, q)
  {
    hide *;
    StepCreated(api, request, n, base, p, q, more, errs);
    ErrorsOfAppend(p.calls, more);
    forall i | 0 <= i <= n
      ensures Refused(api, request[i], request[i].0 in installed, q.guidMap, q.calls) <==>
        if i < n then Refused(api, request[i], request[i].0 in installed, p.guidMap, p.calls)
        else Refused(api, request[n], request[n].0 in p.guidMap, q.guidMap, more)
    {
      StepRefused(api, request, n, installed, before, base, p, q, more, errs, i);
    }
    SomeRefusedStep(api, request, n, installed, p, q, more);
    ToldJoin(api, request, n, installed, base, p, q, more, errs);
  }

  lemma ToldJoin(api: PowerApi, request: Request, n: nat, installed: GuidMap, base: Guid,
                 p: Phase, q: Phase, more: seq<Call>, errs: set<DError>)
    requires n < |request| && ToldInv(api, request, n, installed, p) && Step(api, request[n], base, p, q, more, errs)
    requires AllCreated(request, n + 1, q.guidMap) <==> AllCreated(request, n, p.guidMap) && request[n].0 in q.guidMap
    requires ErrorsOf(p.calls + more) == ErrorsOf(p.calls) + ErrorsOf(more)
    requires SomeRefused(api, request, n + 1, installed, q.guidMap, q.calls) <==>
      SomeRefused(api, request, n, installed, p.guidMap, p.calls)
      || Refused(api, request[n], request[n].0 in p.guidMap, q.guidMap, more)
    ensures ToldInv(api, request, n + 1, installed, q)
  {
    hide Refused, ErrorsOf, AllCreated, SomeRefused, Updated, Handled, CallsFor, Settled;
  }

  lemma SomeRefusedStep(api: PowerApi, request: Request, n: nat, installed: GuidMap, p: Phase, q: Phase,
                        more: seq<Call>)
    requires n < |request| && Keeps(request, n)
    requires forall i :: 0 <= i <= n ==>
      (Refused(api, request[i], request[i].0 in installed, q.guidMap, q.calls) <==>
        if i < n then Refused(api, request[i], request[i].0 in installed, p.guidMap, p.calls)
        else Refused(api, request[n], request[n].0 in p.guidMap, q.guidMap, more))
    ensures SomeRefused(api, request, n + 1, installed, q.guidMap, q.calls) <==>
      SomeRefused(api, request, n, installed, p.guidMap, p.calls)
      || Refused(api, request[n], request[n].0 in p.guidMap, q.guidMap, more)
  {
    hide Refused;
    if SomeRefused(api, request, n, installed, p.guidMap, p.calls) {
      var i :| 0 <= i < n && Keeps(request, i)
               && Refused(api, request[i], request[i].0 in installed, p.guidMap, p.calls);
      assert Refused(api, request[i], request[i].0 in installed, q.guidMap, q.calls);
    }
    if Refused(api, request[n], request[n].0 in p.guidMap, q.guidMap, more) {
      assert Keeps(request, n) && Refused(api, request[n], request[n].0 in installed, q.guidMap, q.calls);
    }
    if SomeRefused(api, request, n + 1, installed, q.guidMap, q.calls) {
      var i :| 0 <= i < n + 1 && Keeps(request, i)
               && Refused(api, request[i], request[i].0 in installed, q.guidMap, q.calls);
      if i < n { assert Refused(api, request[i], request[i].0 in installed, p.guidMap, p.calls); }
    }
  }

  lemma HandledMore(api: PowerApi, entry: (string, PowerScheme), wasInstalled: bool, guidMap: GuidMap,
                    guidMap': GuidMap, before: seq<Call>, calls: seq<Call>, after: seq<Call>)
    requires Handled(api, entry, wasInstalled, guidMap, calls)
    requires TargetOf(guidMap', entry.0) == TargetOf(guidMap, entry.0) && (entry.0 in guidMap' <==> entry.0 in guidMap)
    ensures Handled(api, entry, wasInstalled, guidMap', before + calls + after)
  {
    hide AllAttempted;
    if entry.0 in guidMap && AllAttempted(api, calls, guidMap[entry.0], entry.1.settings) {
      AttemptedMore(api, calls, before, guidMap[entry.0], entry.1.settings);
      AttemptedMore(api, before + calls, after, guidMap[entry.0], entry.1.settings);
    }
  }

  lemma StepHandled(api: PowerApi, request: Request, n: nat, installed: GuidMap, before: Store, base: Guid,
                    p: Phase, q: Phase, more: seq<Call>, errs: set<DError>)
    requires n < |request| && DistinctKeys(request) && Keeps(request, n)
    requires MapInv(request, n, installed, before, p) && HandledInv(api, request, n, installed, p)
    requires Step(api, request[n], base, p, q, more, errs)
    ensures HandledInv(api, request, n + 1, installed, q)
  {
    KeyStays(api, request[n], base, p, q, more, errs);
    NotYetKept(request, n);
    hide Updated, Told, CallsFor, Handled, KeptAmong;
    forall i | 0 <= i < n + 1 && Keeps(request, i)
      ensures Handled(api, request[i], request[i].0 in installed, q.guidMap, q.calls)
    {
      if i < n {
        assert request[i].0 != request[n].0;
        HandledMore(api, request[i], request[i].0 in installed, p.guidMap, q.guidMap, [], p.calls, more);
        assert [] + p.calls + more == q.calls;
      } else {
        HandledMore(api, request[n], request[n].0 in p.guidMap, q.guidMap, q.guidMap, p.calls, more, []);
        assert p.calls + more + [] == q.calls;
      }
    }
  }

  lemma ProgressKeep(api: PowerApi, request: Request, n: nat, installed: GuidMap, before: Store, base: Guid,
                     p: Phase, q: Phase, more: seq<Call>, errs: set<DError>)
    requires n < |request| && DistinctKeys(request) && Keeps(request, n)
    requires Progress(api, request, n, installed, before, p)
    requires Step(api, request[n], base, p, q, more, errs)
    ensures Progress(api, request, n + 1, installed, before, q)
  {
    KeyStays(api, request[n], base, p, q, more, errs);
    hide GoodMap, KeysInv, FrameInv, ToldInv, AccessInv, HandledInv, DoneInv, Unnamed, Missing;
    hide Updated, Told, Handled, CallsFor;
    GoodMapNow(request, n, installed, before, p);
    StepMap(api, request, n, installed, before, base, p, q, more, errs);
    StepKeys(api, request[n], before, base, p, q, more, errs);
    StepCount(api, request, n, base, p, q, more, errs);
    StepFrame(api, request, n, installed, before, base, p, q, more, errs);
    StepTold(api, request, n, installed, before, base, p, q, more, errs);
    StepAccess(api, request, n, base, p, q, more, errs);
    StepHandled(api, request, n, installed, before, base, p, q, more, errs);
    if q.errors == {} {
      assert p.errors == {} && errs == {};
      StepDone(api, request, n, installed, before, base, p, q, more, errs);
    }
  }

  lemma GoodMapNow(request: Request, n: nat, installed: GuidMap, before: Store, p: Phase)
    requires n <= |request| && MapInv(request, n, installed, before, p)
    ensures GoodMap(p.guidMap, p.schemes)
  {
  }

  lemma SkipKept(api: PowerApi, request: Request, n: nat, installed: GuidMap, p: Phase)
    requires n < |request| && !Keeps(request, n)
    ensures Missing(request, n + 1, p.guidMap) == Missing(request, n, p.guidMap)
    ensures AllCreated(request, n + 1, p.guidMap) <==> AllCreated(request, n, p.guidMap)
    ensures SomeRefused(api, request, n + 1, installed, p.guidMap, p.calls) <==>
      SomeRefused(api, request, n, installed, p.guidMap, p.calls)
  {
    hide Refused;
    if AllCreated(request, n, p.guidMap) {
      forall i | 0 <= i < n + 1 && Keeps(request, i) ensures request[i].0 in p.guidMap {
      }
    }
    if AllCreated(request, n + 1, p.guidMap) {
      forall i | 0 <= i < n && Keeps(request, i) ensures request[i].0 in p.guidMap {
      }
    }
  }

  lemma ProgressSkip(api: PowerApi, request: Request, n: nat, installed: GuidMap, before: Store, p: Phase)
    requires n < |request| && !Keeps(request, n) && Progress(api, request, n, installed, before, p)
    ensures Progress(api, request, n + 1, installed, before, p)
  {
    hide MapInv, KeysInv, FrameInv, ToldInv, AccessInv, HandledInv, DoneInv, Unnamed, Missing;
    SkipKept(api, request, n, installed, p);
    SkipMap(request, n, installed, before, p);
    SkipFrame(request, n, installed, before, p);
    SkipAccess(request, n, p);
    SkipTold(api, request, n, installed, p);
    SkipHandled(api, request, n, installed, p);
    if p.errors == {} {
      SkipDone(api, request, n, installed, p);
    }
  }

  lemma SkipMap(request: Request, n: nat, installed: GuidMap, before: Store, p: Phase)
    requires n < |request| && MapInv(request, n, installed, before, p)
    ensures MapInv(request, n + 1, installed, before, p)
  {
    forall k | k in p.guidMap && k !in installed ensures KeptAmong(request, n + 1, k) {
      var i :| 0 <= i < n && Keeps(request, i) && request[i].0 == k;
    }
  }

  lemma SkipAccess(request: Request, n: nat, p: Phase)
    requires n < |request| && AccessInv(request, n, p)
    ensures AccessInv(request, n + 1, p)
  {
    forall g | Access(g, true) in p.calls
      ensures exists i :: 0 <= i < n + 1 && Keeps(request, i) && request[i].0 in p.guidMap
                          && p.guidMap[request[i].0] == g
    {
      var i :| 0 <= i < n && Keeps(request, i) && request[i].0 in p.guidMap && p.guidMap[request[i].0] == g;
    }
  }

  lemma SkipTold(api: PowerApi, request: Request, n: nat, installed: GuidMap, p: Phase)
    requires n < |request| && !Keeps(request, n) && ToldInv(api, request, n, installed, p)
    ensures ToldInv(api, request, n + 1, installed, p)
  {
    SkipKept(api, request, n, installed, p);
    hide AllCreated, SomeRefused, ErrorsOf;
  }

  lemma SkipHandled(api: PowerApi, request: Request, n: nat, installed: GuidMap, p: Phase)
    requires n < |request| && !Keeps(request, n) && HandledInv(api, request, n, installed, p)
    ensures HandledInv(api, request, n + 1, installed, p)
  {
    hide Handled;
  }

  lemma SkipDone(api: PowerApi, request: Request, n: nat, installed: GuidMap, p: Phase)
    requires n < |request| && !Keeps(request, n) && DoneInv(api, request, n, installed, p.guidMap, p.schemes)
    ensures DoneInv(api, request, n + 1, installed, p.guidMap, p.schemes)
  {
    hide EntryDone;
  }

  lemma SkipFrame(request: Request, n: nat, installed: GuidMap, before: Store, p: Phase)
    requires n < |request| && FrameInv(request, n, installed, before, p.schemes)
    ensures FrameInv(request, n + 1, installed, before, p.schemes)
  {
    forall g | g in before && !(g in p.schemes && p.schemes[g] == before[g])
      ensures exists i :: 0 <= i < n + 1 && Keeps(request, i)
                          && request[i].0 in installed && installed[request[i].0] == g
    {
      var i :| 0 <= i < n && Keeps(request, i) && request[i].0 in installed && installed[request[i].0] == g;
    }
  }

  // ---------- the loop over the request ----------

  method FindBase(request: Request, installed: GuidMap) returns (base: Guid)
    ensures base == BaseOf(request, installed)
    ensures forall i :: 0 <= i < |request| && FirstInstalled(request, installed, i) ==> base == installed[request[i].0]
    ensures (forall i :: 0 <= i < |request| ==> !FirstInstalled(request, installed, i)) ==> base == NO_GUID
  {
    BaseIsFirst(request, installed);
    base := NO_GUID;
    for i := 0 to |request|
      invariant base == NO_GUID
      invariant BaseOf(request, installed) == BaseOf(request[i..], installed)
    {
      assert request[i..][0] == request[i] && request[i..][1..] == request[i + 1..];
      var (key, scheme) := request[i];
      if scheme.deleteFlag || key !in installed { continue; }
      return installed[key];
    }
    assert request[|request|..] == [];
  }

  lemma ProgressInit(api: PowerApi, request: Request, installed: GuidMap, activeScheme: string, base: Guid,
                     before: Store)
    requires GoodMap(installed, before)
    ensures PossibleBelow(api, request, 0, installed, base)
    ensures Progress(api, request, 0, installed, before, Phase(installed, before, [], {}))
    ensures SafeCalls([], base, Doomed(request, installed, activeScheme), before)
    ensures ErrorsOf([]) == {} && Doomed(request[..0], installed, activeScheme) == []
  {
    hide MapInv, KeysInv, FrameInv, ToldInv, AccessInv, HandledInv, DoneInv, Unnamed, Missing;
    NothingKept(api, request, installed, before);
    NothingDone(api, request, installed, before);
  }

  lemma NothingKept(api: PowerApi, request: Request, installed: GuidMap, before: Store)
    requires GoodMap(installed, before)
    ensures var p := Phase(installed, before, [], {});
      && MapInv(request, 0, installed, before, p) && KeysInv(before, p)
      && FrameInv(request, 0, installed, before, before)
      && Missing(request, 0, installed) == {} && Unnamed([]) == {}
  {
  }

  lemma NothingDone(api: PowerApi, request: Request, installed: GuidMap, before: Store)
    ensures var p := Phase(installed, before, [], {});
      && ToldInv(api, request, 0, installed, p) && AccessInv(request, 0, p) && HandledInv(api, request, 0, installed, p)
      && DoneInv(api, request, 0, installed, installed, before)
    ensures ErrorsOf([]) == {}
  {
    hide Handled, Refused, EntryDone;
  }

  lemma ProgressMaps(api: PowerApi, request: Request, n: nat, installed: GuidMap, before: Store, p: Phase)
    requires Progress(api, request, n, installed, before, p)
    ensures GoodMap(p.guidMap, p.schemes)
    ensures forall k :: k in installed ==> k in p.guidMap && p.guidMap[k] == installed[k]
  {
  }

  lemma DoomedStep(request: Request, n: nat, installed: GuidMap, activeScheme: string)
    requires n < |request|
    ensures Doomed(request[..n + 1], installed, activeScheme) ==
      Doomed(request[..n], installed, activeScheme) +
      (if request[n].1.deleteFlag && request[n].0 in installed && request[n].0 != activeScheme
       then [installed[request[n].0]] else [])
  {
    assert request[..n + 1][..n] == request[..n] && request[..n + 1][n] == request[n];
  }

  /** A reliable system can do the first n entries. */
  ghost predicate PossibleBelow(api: PowerApi, request: Request, n: nat, installed: GuidMap, base: Guid)
    requires n <= |request|
  {
    forall i :: 0 <= i < n && Keeps(request, i) ==> SchemePossible(api, request[i].0 in installed, base, request[i].1)
  }

  lemma PossibleStep(api: PowerApi, request: Request, n: nat, installed: GuidMap, base: Guid, before: Store, p: Phase)
    requires n < |request| && DistinctKeys(request) && base == BaseOf(request, installed) && GoodMap(installed, before)
    requires Progress(api, request, n, installed, before, p)
    ensures request[n].0 in p.guidMap <==> request[n].0 in installed
    ensures base.data1 != 0 ==> base in p.schemes
    ensures PossibleBelow(api, request, n + 1, installed, base) <==>
      PossibleBelow(api, request, n, installed, base) &&
      (Keeps(request, n) ==> SchemePossible(api, request[n].0 in installed, base, request[n].1))
  {
    hide SchemePossible, KeysInv, FrameInv, ToldInv, AccessInv, HandledInv, DoneInv, Unnamed, Missing;
    NotYetKept(request, n);
    BaseIsKept(request, installed);
  }

  /** The schemes of the request in order, before anything is activated or deleted. */
  method UpdateSchemes(api: PowerApi, installed: GuidMap, request: Request, activeScheme: string, base: Guid)
    returns (guidMap: GuidMap, deleteList: seq<Guid>, errors: set<DError>, ghost calls: seq<Call>)
    requires api.Valid()
    requires DistinctKeys(request) && GoodMap(installed, api.schemes) && base == BaseOf(request, installed)
    modifies api`schemes, api`trace
    ensures api.Valid() && api.trace == old(api.trace) + calls
    ensures deleteList == Doomed(request, installed, activeScheme)
    ensures Progress(api, request, |request|, installed, old(api.schemes), Phase(guidMap, api.schemes, calls, errors))
    ensures SafeCalls(calls, base, deleteList, old(api.schemes))
    ensures errors == {} ==> PossibleBelow(api, request, |request|, installed, base)
    ensures api.reliable ==> ErrorsOf(calls) == {}
    ensures api.reliable && PossibleBelow(api, request, |request|, installed, base) ==> errors == {}
  {
    hide *;
    guidMap, deleteList, errors, calls := installed, [], {}, [];
    ghost var before, doomed := api.schemes, Doomed(request, installed, activeScheme);
    ProgressInit(api, request, installed, activeScheme, base, before);
    for n := 0 to |request|
      invariant api.Valid() && api.trace == old(api.trace) + calls
      invariant deleteList == Doomed(request[..n], installed, activeScheme)
      invariant Progress(api, request, n, installed, before, Phase(guidMap, api.schemes, calls, errors))
      invariant SafeCalls(calls, base, doomed, before)
      invariant errors == {} ==> PossibleBelow(api, request, n, installed, base)
      invariant api.reliable ==> ErrorsOf(calls) == {}
      invariant api.reliable && PossibleBelow(api, request, n, installed, base) ==> errors == {}
    {
      var (key, scheme) := request[n];
      ghost var p := Phase(guidMap, api.schemes, calls, errors);
      DoomedStep(request, n, installed, activeScheme);
      ProgressMaps(api, request, n, installed, before, p);
      KeepsIff(request, n);
      PossibleStep(api, request, n, installed, base, before, p);
      if scheme.deleteFlag {
        if key in guidMap && key != activeScheme {
          deleteList := deleteList + [guidMap[key]];
        }
        ProgressSkip(api, request, n, installed, before, p);
        continue;
      }
      var errs;
      ghost var more;
      guidMap, errs, more := UpdateScheme(api, guidMap, base, key, scheme);
      calls, errors := calls + more, errors + errs;
      ghost var q := Phase(guidMap, api.schemes, calls, errors);
      StepTaken(api, (key, scheme), base, p, q, more, errs);
      ProgressKeep(api, request, n, installed, before, base, p, q, more, errs);
      CallsAreSafe(api, request, n, installed, before, activeScheme, base, p, q, more, errs);
      ErrorsOfAppend(p.calls, more);
    }
    assert request[..|request|] == request;
  }

  lemma StepTaken(api: PowerApi, entry: (string, PowerScheme), base: Guid, p: Phase, q: Phase, more: seq<Call>,
                  errs: set<DError>)
    requires Updated(api, entry, p.guidMap, p.schemes, q.guidMap, q.schemes, more)
    requires Told(api, entry, p.guidMap, q.guidMap, q.schemes, more, errs)
    requires Handled(api, entry, entry.0 in p.guidMap, q.guidMap, more)
    requires CallsFor(more, base, p.schemes, q.guidMap, entry.0)
    requires q.calls == p.calls + more && q.errors == p.errors + errs
    ensures Step(api, entry, base, p, q, more, errs)
  {
  }

  lemma KeepsIff(request: Request, n: nat)
    requires n < |request|
    ensures Keeps(request, n) <==> !request[n].1.deleteFlag
  {
  }

  /** Work on a kept scheme stays clear of the delete list. */
  lemma CallsAreSafe(api: PowerApi, request: Request, n: nat, installed: GuidMap, before: Store, activeScheme: string,
                     base: Guid, p: Phase, q: Phase, more: seq<Call>, errs: set<DError>)
    requires n < |request| && DistinctKeys(request) && Keeps(request, n) && GoodMap(installed, before)
    requires Progress(api, request, n, installed, before, p) && Step(api, request[n], base, p, q, more, errs)
    requires SafeCalls(p.calls, base, Doomed(request, installed, activeScheme), before)
    ensures SafeCalls(q.calls, base, Doomed(request, installed, activeScheme), before)
  {
    var key := request[n].0;
    StepMap(api, request, n, installed, before, base, p, q, more, errs);
    DoomedDistinct(request, installed, activeScheme, before);
    hide KeysInv, FrameInv, ToldInv, AccessInv, HandledInv, DoneInv, Unnamed, Missing, Updated, Told, Handled, Distinct;
    hide Doomed;
    if key in q.guidMap {
      assert Keeps(request, n);
      DoomedSpares(request, installed, activeScheme, q.guidMap, q.schemes, key);
    }
    SafeCallsJoin(p.calls, more, base, Doomed(request, installed, activeScheme), before, p.schemes, q.guidMap, key);
  }

  lemma SafeCallsJoin(calls: seq<Call>, more: seq<Call>, base: Guid, doomed: seq<Guid>, before: Store, now: Store,
                      guidMap: GuidMap, key: string)
    requires SafeCalls(calls, base, doomed, before) && CallsFor(more, base, now, guidMap, key)
    requires before.Keys <= now.Keys && (forall g :: g in doomed ==> g in before)
    requires key in guidMap ==> guidMap[key] !in doomed
    ensures SafeCalls(calls + more, base, doomed, before)
  {
  }

  // ---------- deletions ----------

  /** Installed, and not the active one. */
  ghost predicate AllDeletable(guids: seq<Guid>, schemes: Store, active: Guid) {
    forall g :: g in guids ==> g in schemes && g != active
  }

  /** Distinct schemes have distinct GUIDs, so none is deleted twice. */
  lemma {:induction false} DoomedDistinct(request: Request, installed: GuidMap, activeScheme: string, schemes: Store)
    requires DistinctKeys(request) && GoodMap(installed, schemes)
    ensures Distinct(Doomed(request, installed, activeScheme))
    ensures forall g :: g in Doomed(request, installed, activeScheme) ==> g in schemes
  {
    if request != [] {
      var rest := request[..|request| - 1];
      DoomedDistinct(rest, installed, activeScheme, schemes);
      DoomedAre(rest, installed, activeScheme);
      var key := request[|request| - 1].0;
      if key in installed {
        forall i | 0 <= i < |rest| && rest[i].0 in installed ensures installed[rest[i].0] != installed[key] {
          assert rest[i].0 != key;
        }
        assert installed[key] !in Doomed(rest, installed, activeScheme);
      }
    }
  }

  /** The calls delete exactly these, in this order. */
  ghost predicate DeletesOf(deletes: seq<Call>, guids: seq<Guid>) {
    |deletes| == |guids| && forall i :: 0 <= i < |deletes| ==> deletes[i].Delete? && deletes[i].guid == guids[i]
  }

  lemma NotYetDeleted(deleteList: seq<Guid>, deletes: seq<Call>, ok: bool)
    requires |deletes| < |deleteList| && DeletesOf(deletes, deleteList[..|deletes|])
    ensures Distinct(deleteList) ==> Delete(deleteList[|deletes|], true) !in deletes
    ensures deleteList[|deletes|] in deleteList
    ensures DeletesOf(deletes + [Delete(deleteList[|deletes|], ok)], deleteList[..|deletes| + 1])
    ensures ErrorsOf(deletes + [Delete(deleteList[|deletes|], ok)]) ==
            ErrorsOf(deletes) + if ok then {} else {W_PWR_DELETE_SCHEMES}
  {
    var c := Delete(deleteList[|deletes|], ok);
    ErrorsOfAppend(deletes, [c]);
    assert ErrorsOf([c]) == if ok then {} else {ErrorOf(c)} by {
      assert c in [c];
    }
    hide ErrorsOf;
    forall j | 0 <= j < |deletes| ensures deletes[j].Delete? && deletes[j].guid == deleteList[j] {
      assert deleteList[..|deletes|][j] == deleteList[j];
    }
  }

  /** The deletions, last of all. */
  method DeleteSchemes(api: PowerApi, deleteList: seq<Guid>) returns (errors: set<DError>, ghost deletes: seq<Call>)
    requires api.Valid()
    modifies api`schemes, api`trace
    ensures api.Valid() && api.trace == old(api.trace) + deletes
    ensures DeletesOf(deletes, deleteList) && errors == ErrorsOf(deletes)
    ensures forall g :: g in api.schemes <==> g in old(api.schemes) && Delete(g, true) !in deletes
    ensures forall g :: g in api.schemes ==> api.schemes[g] == old(api.schemes)[g]
    ensures api.reliable && Distinct(deleteList) && AllDeletable(deleteList, old(api.schemes), api.active) ==>
              errors == {}
  {
    hide PowerApi.Valid, ErrorsOf, Distinct, DeletesOf;
    errors, deletes := {}, [];
    NoErrorsAllOk([]);
    DeletesOfNone(deleteList);
    for i := 0 to |deleteList|
      invariant api.Valid() && api.trace == old(api.trace) + deletes && errors == ErrorsOf(deletes)
      invariant |deletes| == i && DeletesOf(deletes, deleteList[..i])
      invariant forall g :: g in api.schemes <==> g in old(api.schemes) && Delete(g, true) !in deletes
      invariant forall g :: g in api.schemes ==> api.schemes[g] == old(api.schemes)[g]
      invariant api.reliable && Distinct(deleteList) && AllDeletable(deleteList, old(api.schemes), api.active) ==>
        errors == {}
    {
      var ok := api.PowerDeleteScheme(deleteList[i]);
      NotYetDeleted(deleteList, deletes, ok);
      if !ok { errors := errors + {W_PWR_DELETE_SCHEMES}; }
      deletes := deletes + [Delete(deleteList[i], ok)];
    }
    assert deleteList[..|deleteList|] == deleteList;
  }

  lemma DeletesOfNone(deleteList: seq<Guid>)
    ensures DeletesOf([], deleteList[..0])
  {
  }

  // ---------- what the whole call promises ----------

  /** The store the request asks for: kept schemes installed and settled, flagged ones gone, no other scheme
      gone or added, and the requested scheme active. */
  ghost predicate Achieved(api: PowerApi, request: Request, installed: GuidMap, activeScheme: string,
                           before: Store, guidMap: GuidMap)
    reads api
  {
    && DoneInv(api, request, |request|, installed, guidMap, api.schemes)
    && (forall g :: g in api.schemes <==>
          (g in before || g in guidMap.Values) && g !in Doomed(request, installed, activeScheme))
    && activeScheme in guidMap && api.active == guidMap[activeScheme] && api.active in api.schemes
  }

  /** What the request needs of a system that refuses nothing: a scheme to duplicate from if any is to
      be created, settings that can be written, and a scheme to activate. */
  ghost predicate Possible(api: PowerApi, request: Request, installed: GuidMap, activeScheme: string) {
    && PossibleBelow(api, request, |request|, installed, BaseOf(request, installed))
    && (activeScheme in installed || KeptAmong(request, |request|, activeScheme))
  }

  /** What a call did: the final GUID map, and the calls to the system in three phases. */
  datatype Plan = Plan(guidMap: GuidMap, work: seq<Call>, act: seq<Call>, deletes: seq<Call>)

  /** The activation is one call if there is anything to activate, and none otherwise. */
  ghost predicate ActivationOf(act: seq<Call>, guidMap: GuidMap, activeScheme: string) {
    if activeScheme in guidMap
    then act == [Activate(guidMap[activeScheme], true)] || act == [Activate(guidMap[activeScheme], false)]
    else act == []
  }

  /** Every duplicate is made of the first kept scheme that is installed, and none without one. */
  ghost predicate CopiesOfFirst(request: Request, installed: GuidMap, calls: seq<Call>) {
    forall c :: c in calls && c.Duplicate? ==>
      exists i :: 0 <= i < |request| && FirstInstalled(request, installed, i) && c.source == installed[request[i].0]
  }

  lemma CopiesAreOfFirst(request: Request, installed: GuidMap, calls: seq<Call>, doomed: seq<Guid>, before: Store)
    requires SafeCalls(calls, BaseOf(request, installed), doomed, before)
    ensures CopiesOfFirst(request, installed, calls)
  {
    BaseIsFirst(request, installed);
    hide BaseOf;
    forall c | c in calls && c.Duplicate?
      ensures exists i :: 0 <= i < |request| && FirstInstalled(request, installed, i)
                          && c.source == installed[request[i].0]
    {
      assert BaseOf(request, installed) != NO_GUID;
    }
  }

  /** The phases keep clear of each other: nothing duplicated, worked on, activated or duplicated from is in
      the delete list, and exactly that list is deleted. */
  ghost predicate SafePhases(request: Request, installed: GuidMap, activeScheme: string, before: Store,
                             plan: Plan)
  {
    var base, doomed := BaseOf(request, installed), Doomed(request, installed, activeScheme);
    && SafeCalls(plan.work, base, doomed, before)
    && CopiesOfFirst(request, installed, plan.work)
    && (base == NO_GUID || base !in doomed)
    && ActivationOf(plan.act, plan.guidMap, activeScheme)
    && (activeScheme in plan.guidMap ==> plan.guidMap[activeScheme] !in doomed)
    && DeletesOf(plan.deletes, doomed)
  }

  /** The map extends the installed one by fresh GUIDs for kept schemes. */
  ghost predicate MapExtends(request: Request, installed: GuidMap, before: Store, guidMap: GuidMap) {
    && (forall k :: k in installed ==> k in guidMap && guidMap[k] == installed[k])
    && (forall k :: k in guidMap && k !in installed ==> guidMap[k] !in before && KeptAmong(request, |request|, k))
  }

  /** Some kept entry of the request names the installed scheme g. */
  ghost predicate NamedByKept(request: Request, installed: GuidMap, g: Guid) {
    exists i :: 0 <= i < |request| && Keeps(request, i) && request[i].0 in installed && installed[request[i].0] == g
  }

  /** Schemes the request neither keeps nor dooms are untouched, and none but the doomed disappears. */
  ghost predicate OthersKept(request: Request, installed: GuidMap, doomed: seq<Guid>, before: Store,
                             after: Store)
  {
    forall g :: g in before && g !in doomed ==>
      g in after && (after[g] == before[g] || NamedByKept(request, installed, g))
  }

  /** The new schemes are those of the map's new keys, none of which is lost again, and the duplicates whose
      name could not be written, at most one for each kept scheme that the map lacks. */
  ghost predicate NewSchemes(request: Request, before: Store, after: Store, plan: Plan) {
    && (forall g :: g in after && g !in before <==> g in plan.guidMap.Values + Unnamed(plan.work) && g !in before)
    && Unnamed(plan.work) !! before.Keys + plan.guidMap.Values
    && |Unnamed(plan.work)| <= |Missing(request, |request|, plan.guidMap)|
  }

  /** No scheme is left behind exactly when every duplicate got its name. */
  lemma NothingLeftIff(request: Request, before: Store, after: Store, plan: Plan)
    requires NewSchemes(request, before, after, plan)
    ensures (forall g :: g in after ==> g in before || g in plan.guidMap.Values) <==> Unnamed(plan.work) == {}
  {
    if g :| g in Unnamed(plan.work) {
      assert g in plan.guidMap.Values + Unnamed(plan.work) && g !in before;
    }
  }

  /** The active scheme is the activated one or the old one, and survives unless activation failed and the
      old one was doomed. */
  ghost predicate ActiveSurvives(plan: Plan, activeScheme: string, doomed: seq<Guid>, before: Store, active0: Guid,
                                 after: Store, active: Guid)
  {
    && active == LastActive(active0, plan.act)
    && ((plan.act != [] && plan.act[0].ok) || (active0 in before && active0 !in doomed) ==> active in after)
  }

  /** The errors are exactly those of failed calls, a creation error if some kept scheme is missing from the map,
      a setting error if an entry that cannot be written was reached, and an activation error if there was
      nothing to activate. */
  ghost predicate ErrorsTold(api: PowerApi, request: Request, installed: GuidMap, activeScheme: string, plan: Plan,
                             errors: set<DError>)
  {
    errors == ErrorsOf(plan.work + plan.act + plan.deletes)
      + (if AllCreated(request, |request|, plan.guidMap) then {} else {W_PWR_CREATE_SCHEMES})
      + (if SomeRefused(api, request, |request|, installed, plan.guidMap, plan.work) then {W_PWR_SCHEME} else {})
      + (if activeScheme in plan.guidMap then {} else {W_PWR_ACTIVE_SCHEME})
  }

  /** Whatever fails, every kept scheme that exists is reset or configured as far as the system lets it be. */
  ghost predicate AllHandled(api: PowerApi, request: Request, installed: GuidMap, plan: Plan) {
    forall i :: 0 <= i < |request| && Keeps(request, i) ==>
      Handled(api, request[i], request[i].0 in installed, plan.guidMap, plan.work)
  }

  /** What holds with or without errors. */
  ghost predicate Safety(api: PowerApi, request: Request, installed: GuidMap, activeScheme: string, before: Store,
                         active0: Guid, after: Store, active: Guid, plan: Plan, errors: set<DError>)
  {
    && SafePhases(request, installed, activeScheme, before, plan)
    && MapExtends(request, installed, before, plan.guidMap)
    && OthersKept(request, installed, Doomed(request, installed, activeScheme), before, after)
    && NewSchemes(request, before, after, plan)
    && ActiveSurvives(plan, activeScheme, Doomed(request, installed, activeScheme), before, active0, after, active)
    && ErrorsTold(api, request, installed, activeScheme, plan, errors)
    && AllHandled(api, request, installed, plan)
  }

  /** No errors means the store is as requested; a reliable system reports none exactly when the request is
      possible. */
  ghost predicate Outcome(api: PowerApi, request: Request, installed: GuidMap, activeScheme: string,
                          before: Store, guidMap: GuidMap, errors: set<DError>)
    reads api
  {
    && (errors == {} ==> Achieved(api, request, installed, activeScheme, before, guidMap))
    && (errors == {} ==> Possible(api, request, installed, activeScheme))
    && (api.reliable && Possible(api, request, installed, activeScheme) ==> errors == {})
  }

  /** The state after the loop over the request. */
  ghost predicate Worked(api: PowerApi, request: Request, installed: GuidMap, activeScheme: string,
                         before: Store, mid: Store, plan: Plan, errs: set<DError>)
  {
    && DistinctKeys(request) && GoodMap(installed, before)
    && Progress(api, request, |request|, installed, before, Phase(plan.guidMap, mid, plan.work, errs))
    && SafeCalls(plan.work, BaseOf(request, installed), Doomed(request, installed, activeScheme), before)
    && (errs == {} ==> PossibleBelow(api, request, |request|, installed, BaseOf(request, installed)))
    && (api.reliable && PossibleBelow(api, request, |request|, installed, BaseOf(request, installed)) ==> errs == {})
  }

  /** The activation. */
  ghost predicate Activated(api: PowerApi, activeScheme: string, mid: Store, plan: Plan, active0: Guid, active: Guid,
                            actErrs: set<DError>)
  {
    && ActivationOf(plan.act, plan.guidMap, activeScheme) && active == LastActive(active0, plan.act)
    && (actErrs == {} <==> activeScheme in plan.guidMap && plan.act == [Activate(plan.guidMap[activeScheme], true)])
    && actErrs <= {W_PWR_ACTIVE_SCHEME}
    && (api.reliable && activeScheme in plan.guidMap && plan.guidMap[activeScheme] in mid ==> actErrs == {})
  }

  /** The deletions. */
  ghost predicate Deleted(api: PowerApi, doomed: seq<Guid>, mid: Store, after: Store, active: Guid,
                          deletes: seq<Call>, deleteErrs: set<DError>)
  {
    && DeletesOf(deletes, doomed) && deleteErrs == ErrorsOf(deletes)
    && (forall g :: g in after <==> g in mid && Delete(g, true) !in deletes)
    && (forall g :: g in after ==> after[g] == mid[g])
    && (api.reliable && Distinct(doomed) && AllDeletable(doomed, mid, active) ==> deleteErrs == {})
  }

  /** What the later phases need of the loop. */
  lemma ProgressFacts(api: PowerApi, request: Request, installed: GuidMap, before: Store, p: Phase)
    requires Progress(api, request, |request|, installed, before, p)
    ensures GoodMap(p.guidMap, p.schemes) && MapExtends(request, installed, before, p.guidMap)
    ensures before.Keys <= p.schemes.Keys && KeysInv(before, p)
  {
    hide KeysInv, FrameInv, ToldInv, AccessInv, HandledInv, DoneInv, Unnamed, Missing, GoodMap, KeptAmong;
  }

  lemma WorkedFacts(api: PowerApi, request: Request, installed: GuidMap, activeScheme: string,
                    before: Store, mid: Store, plan: Plan, errs: set<DError>)
    requires Worked(api, request, installed, activeScheme, before, mid, plan, errs)
    ensures DistinctKeys(request) && GoodMap(installed, before) && GoodMap(plan.guidMap, mid)
    ensures MapExtends(request, installed, before, plan.guidMap) && before.Keys <= mid.Keys
    ensures KeysInv(before, Phase(plan.guidMap, mid, plan.work, errs))
    ensures activeScheme in plan.guidMap ==>
      plan.guidMap[activeScheme] in mid && plan.guidMap[activeScheme] !in Doomed(request, installed, activeScheme)
    ensures forall g :: g in Doomed(request, installed, activeScheme) ==> g in before
    ensures Distinct(Doomed(request, installed, activeScheme))
  {
    hide Doomed, BaseOf, SafeCalls, PossibleBelow, Progress, KeysInv, Distinct, DistinctKeys, GoodMap, MapExtends;
    hide KeptAmong;
    ProgressFacts(api, request, installed, before, Phase(plan.guidMap, mid, plan.work, errs));
    DoomedDistinct(request, installed, activeScheme, before);
    if activeScheme in plan.guidMap {
      KeyThere(plan.guidMap, mid, activeScheme);
      ActiveSpared(request, installed, activeScheme, before, plan.guidMap, mid);
    }
  }

  lemma ActiveSpared(request: Request, installed: GuidMap, activeScheme: string, before: Store, guidMap: GuidMap,
                     schemes: Store)
    requires DistinctKeys(request) && GoodMap(guidMap, schemes) && MapExtends(request, installed, before, guidMap)
    requires activeScheme in guidMap
    ensures guidMap[activeScheme] !in Doomed(request, installed, activeScheme)
  {
    hide Doomed, GoodMap, DistinctKeys, KeptAmong;
    DoomedSpares(request, installed, activeScheme, guidMap, schemes, activeScheme);
  }

  lemma PhasesSafe(api: PowerApi, request: Request, installed: GuidMap, activeScheme: string, before: Store,
                   mid: Store, plan: Plan, errs: set<DError>)
    requires Worked(api, request, installed, activeScheme, before, mid, plan, errs)
    requires ActivationOf(plan.act, plan.guidMap, activeScheme)
    requires DeletesOf(plan.deletes, Doomed(request, installed, activeScheme))
    ensures SafePhases(request, installed, activeScheme, before, plan)
    ensures MapExtends(request, installed, before, plan.guidMap)
  {
    WorkedFacts(api, request, installed, activeScheme, before, mid, plan, errs);
    hide Doomed, BaseOf, SafeCalls, PossibleBelow, Progress, DeletesOf, ActivationOf, MapExtends, KeysInv, Distinct;
    hide CopiesOfFirst;
    CopiesAreOfFirst(request, installed, plan.work, Doomed(request, installed, activeScheme), before);
    BaseSpared(request, installed, activeScheme, before);
  }

  lemma StoreSafe(api: PowerApi, request: Request, installed: GuidMap, activeScheme: string,
                  before: Store, mid: Store, after: Store, plan: Plan, errs: set<DError>, actErrs: set<DError>,
                  deleteErrs: set<DError>, active0: Guid, active: Guid)
    requires Worked(api, request, installed, activeScheme, before, mid, plan, errs)
    requires Activated(api, activeScheme, mid, plan, active0, active, actErrs)
    requires Deleted(api, Doomed(request, installed, activeScheme), mid, after, active, plan.deletes, deleteErrs)
    ensures OthersKept(request, installed, Doomed(request, installed, activeScheme), before, after)
    ensures NewSchemes(request, before, after, plan)
    ensures ActiveSurvives(plan, activeScheme, Doomed(request, installed, activeScheme), before, active0, after, active)
  {
    hide Doomed, Worked, DeletesOf, ErrorsOf, MapExtends, GoodMap, KeysInv, OthersKept, NewSchemes, Distinct;
    hide AllDeletable, DistinctKeys, LastActive;
    var doomed := Doomed(request, installed, activeScheme);
    WorkedFacts(api, request, installed, activeScheme, before, mid, plan, errs);
    SparedByDeletes(plan.deletes, doomed, mid, after);
    OthersAreKept(api, request, installed, activeScheme, before, mid, after, plan, errs);
    NewOnesStay(api, request, installed, activeScheme, before, mid, after, plan, errs);
    LastIs(plan.act, plan.guidMap, activeScheme, active0);
  }

  lemma LastIs(act: seq<Call>, guidMap: GuidMap, activeScheme: string, active0: Guid)
    requires ActivationOf(act, guidMap, activeScheme)
    ensures LastActive(active0, act) ==
      if activeScheme in guidMap && act == [Activate(guidMap[activeScheme], true)] then guidMap[activeScheme]
      else active0
    ensures act != [] && act[0].ok <==>
      activeScheme in guidMap && act == [Activate(guidMap[activeScheme], true)]
  {
    assert act != [] ==> act[..0] == [];
  }

  lemma OthersAreKept(api: PowerApi, request: Request, installed: GuidMap, activeScheme: string,
                      before: Store, mid: Store, after: Store, plan: Plan, errs: set<DError>)
    requires Worked(api, request, installed, activeScheme, before, mid, plan, errs)
    requires forall g :: g in mid && g !in Doomed(request, installed, activeScheme) ==> g in after
    requires forall g :: g in after ==> g in mid && after[g] == mid[g]
    ensures OthersKept(request, installed, Doomed(request, installed, activeScheme), before, after)
  {
    var doomed := Doomed(request, installed, activeScheme);
    hide Doomed, BaseOf, SafeCalls, PossibleBelow, KeysInv, ToldInv, AccessInv, HandledInv, DoneInv, Unnamed, Missing;
    forall g | g in before && g !in doomed
      ensures g in after && (after[g] == before[g] || NamedByKept(request, installed, g))
    {
      assert g in mid;
    }
  }

  lemma NewOnesStay(api: PowerApi, request: Request, installed: GuidMap, activeScheme: string,
                    before: Store, mid: Store, after: Store, plan: Plan, errs: set<DError>)
    requires Worked(api, request, installed, activeScheme, before, mid, plan, errs)
    requires forall g :: g in Doomed(request, installed, activeScheme) ==> g in before
    requires forall g :: g in mid && g !in Doomed(request, installed, activeScheme) ==> g in after
    requires forall g :: g in after ==> g in mid
    ensures NewSchemes(request, before, after, plan)
  {
    hide Doomed, BaseOf, SafeCalls, PossibleBelow, MapInv, FrameInv, ToldInv, AccessInv, HandledInv, DoneInv;
    hide Unnamed, Missing;
  }

  lemma ErrorsAreTold(api: PowerApi, request: Request, installed: GuidMap, activeScheme: string,
                      before: Store, mid: Store, plan: Plan, errs: set<DError>, actErrs: set<DError>, active0: Guid,
                      active: Guid)
    requires Worked(api, request, installed, activeScheme, before, mid, plan, errs)
    requires Activated(api, activeScheme, mid, plan, active0, active, actErrs)
    ensures ErrorsTold(api, request, installed, activeScheme, plan, errs + actErrs + ErrorsOf(plan.deletes))
    ensures AllHandled(api, request, installed, plan)
  {
    hide Doomed, BaseOf, SafeCalls, PossibleBelow, MapInv, KeysInv, FrameInv, AccessInv, DoneInv, Unnamed, Missing;
    hide AllCreated, SomeRefused, Handled, LastActive, ErrorsOf, GoodMap, DistinctKeys;
    ErrorsOfAppend(plan.work, plan.act);
    ErrorsOfAppend(plan.work + plan.act, plan.deletes);
    ActErrors(plan.act, plan.guidMap, activeScheme);
  }

  lemma ActErrors(act: seq<Call>, guidMap: GuidMap, activeScheme: string)
    requires ActivationOf(act, guidMap, activeScheme)
    ensures ErrorsOf(act) <= {W_PWR_ACTIVE_SCHEME}
    ensures activeScheme !in guidMap ==> ErrorsOf(act) == {}
    ensures activeScheme in guidMap ==> (ErrorsOf(act) == {} <==> act == [Activate(guidMap[activeScheme], true)])
  {
    NoErrorsAllOk(act);
    if activeScheme in guidMap && ErrorsOf(act) == {} {
      assert act[0] in act;
    }
  }

  lemma ActivationAndDeletes(api: PowerApi, request: Request, installed: GuidMap, activeScheme: string,
                             before: Store, mid: Store, after: Store, plan: Plan, errs: set<DError>,
                             actErrs: set<DError>, deleteErrs: set<DError>, active0: Guid, active: Guid)
    requires Worked(api, request, installed, activeScheme, before, mid, plan, errs)
    requires Activated(api, activeScheme, mid, plan, active0, active, actErrs)
    requires Deleted(api, Doomed(request, installed, activeScheme), mid, after, active, plan.deletes, deleteErrs)
    ensures errs == {} ==>
      (activeScheme in installed || KeptAmong(request, |request|, activeScheme) <==> activeScheme in plan.guidMap)
    ensures api.reliable && activeScheme in plan.guidMap ==> actErrs == {} && deleteErrs == {}
  {
    hide Doomed, BaseOf, SafeCalls, PossibleBelow, Progress, ErrorsOf, KeysInv, KeptAmong, DeletesOf, Distinct;
    hide MapExtends, GoodMap, DistinctKeys, LastActive;
    var doomed := Doomed(request, installed, activeScheme);
    WorkedFacts(api, request, installed, activeScheme, before, mid, plan, errs);
    NoneMissing(api, request, installed, before, Phase(plan.guidMap, mid, plan.work, errs), activeScheme);
    LastIs(plan.act, plan.guidMap, activeScheme, active0);
    if api.reliable && activeScheme in plan.guidMap {
      assert active == plan.guidMap[activeScheme] && AllDeletable(doomed, mid, active);
    }
  }

  lemma NoneMissing(api: PowerApi, request: Request, installed: GuidMap, before: Store, p: Phase, activeScheme: string)
    requires Progress(api, request, |request|, installed, before, p)
    ensures p.errors == {} ==>
      (activeScheme in installed || KeptAmong(request, |request|, activeScheme) <==> activeScheme in p.guidMap)
  {
    hide KeysInv, FrameInv, AccessInv, HandledInv, DoneInv, Unnamed, Missing, ErrorsOf, SomeRefused;
  }

  lemma OutcomeHolds(api: PowerApi, request: Request, installed: GuidMap, activeScheme: string,
                     before: Store, mid: Store, plan: Plan, errs: set<DError>, actErrs: set<DError>,
                     deleteErrs: set<DError>, active0: Guid)
    requires Worked(api, request, installed, activeScheme, before, mid, plan, errs)
    requires Activated(api, activeScheme, mid, plan, active0, api.active, actErrs)
    requires Deleted(api, Doomed(request, installed, activeScheme), mid, api.schemes, api.active, plan.deletes,
                     deleteErrs)
    ensures Outcome(api, request, installed, activeScheme, before, plan.guidMap, errs + actErrs + deleteErrs)
  {
    hide Doomed, BaseOf, SafeCalls, PossibleBelow, Achieved, Progress, ErrorsOf, Distinct, DeletesOf, KeptAmong;
    hide KeysInv, GoodMap, DistinctKeys, LastActive, DoneInv, AllCreated, Unnamed;
    WorkedFacts(api, request, installed, activeScheme, before, mid, plan, errs);
    ActivationAndDeletes(api, request, installed, activeScheme, before, mid, api.schemes, plan, errs, actErrs,
                         deleteErrs, active0, api.active);
    if errs + actErrs + deleteErrs == {} {
      assert errs == {} && deleteErrs == {} && actErrs == {};
      NoneUnnamed(api, request, installed, before, Phase(plan.guidMap, mid, plan.work, errs));
      LastIs(plan.act, plan.guidMap, activeScheme, active0);
      AchievedWithoutErrors(api, request, installed, activeScheme, before, plan.guidMap, mid, plan.deletes);
    }
  }

  /** Without errors every duplicate got its name. */
  lemma NoneUnnamed(api: PowerApi, request: Request, installed: GuidMap, before: Store, p: Phase)
    requires Progress(api, request, |request|, installed, before, p) && p.errors == {}
    ensures Unnamed(p.calls) == {} && p.schemes.Keys == before.Keys + p.guidMap.Values
    ensures DoneInv(api, request, |request|, installed, p.guidMap, p.schemes)
    ensures AllCreated(request, |request|, p.guidMap)
  {
    hide MapInv, FrameInv, AccessInv, HandledInv, DoneInv, Unnamed, Missing, ErrorsOf, SomeRefused, AllCreated;
    NoErrorsNoneUnnamed(p.calls);
  }

  /** setPowerSchemes: Outcome and Safety. The system saw the work, at most one activation, then the
      deletions, and the store is what these calls make of the old one. */
  method SetPowerSchemes(api: PowerApi, installed: GuidMap, request: Request, activeScheme: string)
    returns (errors: set<DError>, ghost plan: Plan)
    requires api.Valid() && DistinctKeys(request) && GoodMap(installed, api.schemes)
    modifies api
    ensures api.Valid() && api.trace == old(api.trace) + plan.work + plan.act + plan.deletes
    ensures api.schemes == Replay(api.defaults, old(api.schemes), plan.work + plan.act + plan.deletes)
    ensures Outcome(api, request, installed, activeScheme, old(api.schemes), plan.guidMap, errors)
    ensures Safety(api, request, installed, activeScheme, old(api.schemes), old(api.active), api.schemes, api.active,
                   plan, errors)
  {
    hide Doomed, BaseOf, SafeCalls, PossibleBelow, Progress, ErrorsOf, Distinct, GoodMap, DistinctKeys, Outcome;
    hide SafePhases, MapExtends, OthersKept, NewSchemes, ActiveSurvives, ErrorsTold, AllHandled, PowerApi.Valid;
    hide Activated, DeletesOf, AllDeletable, Replay, LastActive;
    assert api.schemes == Replay(api.defaults, api.initial, api.trace) by { NowReplayed(api); }
    ghost var before, active0, work, act, deletes := api.schemes, api.active, [], [], [];
    var base := FindBase(request, installed);
    var guidMap, deleteList, errs;
    guidMap, deleteList, errs, work := UpdateSchemes(api, installed, request, activeScheme, base);
    ghost var mid := api.schemes;
    var actErrs: set<DError> := {};
    var activated := false;
    if activeScheme in guidMap {
      activated := api.PowerSetActiveScheme(guidMap[activeScheme]);
      act := [Activate(guidMap[activeScheme], activated)];
    }
    if !activated { actErrs := {W_PWR_ACTIVE_SCHEME}; }
    var deleteErrs;
    deleteErrs, deletes := DeleteSchemes(api, deleteList);
    errors := errs + actErrs + deleteErrs;
    plan := Plan(guidMap, work, act, deletes);
    assert Worked(api, request, installed, activeScheme, before, mid, plan, errs);
    ActivatedIs(api, activeScheme, mid, plan, active0, api.active, activated, actErrs);
    assert Deleted(api, deleteList, mid, api.schemes, api.active, deletes, deleteErrs);
    PhasesSafe(api, request, installed, activeScheme, before, mid, plan, errs);
    StoreSafe(api, request, installed, activeScheme, before, mid, api.schemes, plan, errs, actErrs, deleteErrs, active0,
              api.active);
    ErrorsAreTold(api, request, installed, activeScheme, before, mid, plan, errs, actErrs, active0, api.active);
    OutcomeHolds(api, request, installed, activeScheme, before, mid, plan, errs, actErrs, deleteErrs, active0);
    Replayed(api, old(api.trace), before, work + act + deletes);
  }

  lemma NowReplayed(api: PowerApi)
    requires api.Valid()
    ensures api.schemes == Replay(api.defaults, api.initial, api.trace)
  {
  }

  lemma ActivatedIs(api: PowerApi, activeScheme: string, mid: Store, plan: Plan, active0: Guid, active: Guid,
                    activated: bool, actErrs: set<DError>)
    requires actErrs == if activated then {} else {W_PWR_ACTIVE_SCHEME}
    requires activeScheme !in plan.guidMap ==> plan.act == [] && !activated && active == active0
    requires activeScheme in plan.guidMap ==>
      (plan.act == [Activate(plan.guidMap[activeScheme], activated)]
       && active == (if activated then plan.guidMap[activeScheme] else active0)
       && (api.reliable && plan.guidMap[activeScheme] in mid ==> activated))
    ensures Activated(api, activeScheme, mid, plan, active0, active, actErrs)
  {
    assert plan.act != [] ==> plan.act[..0] == [];
  }

  lemma Replayed(api: PowerApi, trace: seq<Call>, before: Store, calls: seq<Call>)
    requires api.Valid() && api.trace == trace + calls
    requires before == Replay(api.defaults, api.initial, trace)
    ensures api.schemes == Replay(api.defaults, before, calls)
  {
    ReplayAppend(api.defaults, api.initial, api.initialActive, trace, calls);
  }

  lemma BaseSpared(request: Request, installed: GuidMap, activeScheme: string, schemes: Store)
    requires DistinctKeys(request) && GoodMap(installed, schemes)
    ensures BaseOf(request, installed) == NO_GUID ||
            BaseOf(request, installed) !in Doomed(request, installed, activeScheme)
  {
    BaseIsKept(request, installed);
    if BaseOf(request, installed) != NO_GUID {
      var i :| 0 <= i < |request| && !request[i].1.deleteFlag && request[i].0 in installed
               && BaseOf(request, installed) == installed[request[i].0];
      DoomedSpares(request, installed, activeScheme, installed, schemes, request[i].0);
    }
  }

  lemma SparedByDeletes(deletes: seq<Call>, doomed: seq<Guid>, mid: Store, after: Store)
    requires DeletesOf(deletes, doomed)
    requires forall g :: g in after <==> g in mid && Delete(g, true) !in deletes
    ensures forall g :: g in mid && g !in doomed ==> g in after
  {
    forall g | g in mid && g !in doomed ensures Delete(g, true) !in deletes {
      forall i | 0 <= i < |deletes| ensures deletes[i] != Delete(g, true) {
        assert doomed[i] in doomed;
      }
    }
  }

  lemma AchievedWithoutErrors(api: PowerApi, request: Request, installed: GuidMap, activeScheme: string,
                              before: Store, guidMap: GuidMap, mid: Store, deletes: seq<Call>)
    requires DistinctKeys(request) && GoodMap(guidMap, mid)
    requires forall k :: k in installed ==> k in guidMap && guidMap[k] == installed[k]
    requires DoneInv(api, request, |request|, installed, guidMap, mid)
    requires mid.Keys == before.Keys + guidMap.Values
    requires DeletesOf(deletes, Doomed(request, installed, activeScheme)) && ErrorsOf(deletes) == {}
    requires forall g :: g in api.schemes <==> g in mid && Delete(g, true) !in deletes
    requires forall g :: g in api.schemes ==> api.schemes[g] == mid[g]
    requires activeScheme in guidMap && api.active == guidMap[activeScheme]
    ensures Achieved(api, request, installed, activeScheme, before, guidMap)
  {
    hide Doomed, Settled, ErrorsOf, DeletesOf;
    var doomed := Doomed(request, installed, activeScheme);
    SparedByDeletes(deletes, doomed, mid, api.schemes);
    AllDeleted(deletes, doomed);
    DoneStays(api, request, installed, activeScheme, guidMap, mid);
    hide DoneInv, GoodMap, DistinctKeys;
    DoomedSpares(request, installed, activeScheme, guidMap, mid, activeScheme);
    KeyThere(guidMap, mid, activeScheme);
  }

  lemma AllDeleted(deletes: seq<Call>, doomed: seq<Guid>)
    requires DeletesOf(deletes, doomed) && ErrorsOf(deletes) == {}
    ensures forall g :: g in doomed <==> Delete(g, true) in deletes
  {
    NoErrorsAllOk(deletes);
    forall g | g in doomed ensures Delete(g, true) in deletes {
      var j :| 0 <= j < |doomed| && doomed[j] == g;
      assert deletes[j] in deletes;
    }
    forall g | Delete(g, true) in deletes ensures g in doomed {
      var j :| 0 <= j < |deletes| && deletes[j] == Delete(g, true);
      assert doomed[j] == g;
    }
  }

  lemma DoneStays(api: PowerApi, request: Request, installed: GuidMap, activeScheme: string, guidMap: GuidMap,
                  mid: Store)
    requires DistinctKeys(request) && GoodMap(guidMap, mid)
    requires forall k :: k in installed ==> k in guidMap && guidMap[k] == installed[k]
    requires DoneInv(api, request, |request|, installed, guidMap, mid)
    requires forall g :: g in mid && g !in Doomed(request, installed, activeScheme) ==>
               g in api.schemes && api.schemes[g] == mid[g]
    ensures DoneInv(api, request, |request|, installed, guidMap, api.schemes)
  {
    hide Doomed, Settled;
    forall i | 0 <= i < |request| && Keeps(request, i)
      ensures EntryDone(api, request[i], installed, guidMap, api.schemes)
    {
      assert EntryDone(api, request[i], installed, guidMap, mid);
      DoomedSpares(request, installed, activeScheme, guidMap, mid, request[i].0);
    }
  }
}
