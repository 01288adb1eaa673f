/** One power scheme of a request to OSWindows::setPowerSchemes (src/Device/OS/Windows/OSWindows.cpp): its
    settings, its creation, its reset. */
module SchemeUpdate {
  import opened Basics
  import opened PowerSystem

  /** A requested value of one setting, on mains and on battery. */
  datatype SettingData = SettingData(groupGuid: string, ac: int, dc: int)

  /** A QMap in iteration order: keys are distinct. */
  type QMap<V> = seq<(string, V)>

  ghost predicate DistinctKeys<V>(m: QMap<V>) {
    forall i, j :: 0 <= i < j < |m| ==> m[i].0 != m[j].0
  }

  datatype PowerScheme = PowerScheme(
    friendlyName: string, settings: QMap<SettingData>, deleteFlag: bool, resetFlag: bool)

  /** The GUIDs of the schemes by key. */
  type GuidMap = map<string, Guid>

  /** Everything but scheme g is as before; g itself is still there. */
  ghost predicate OnlyTouches(before: Store, after: Store, g: Guid) {
    && after.Keys == before.Keys + {g}
    && forall h :: h in before && h != g ==> after[h] == before[h]
  }

  // ---------- settings of one scheme ----------

  function SettingKey(parse: string -> Guid, entry: (string, SettingData)): (Guid, Guid) {
    (parse(entry.1.groupGuid), parse(entry.0))
  }

  ghost predicate EntryHolds(s: Stored, key: (Guid, Guid), data: SettingData) {
    && key in s.ac && s.ac[key] == data.ac
    && key in s.dc && s.dc[key] == data.dc
  }

  ghost predicate Overridden(settings: QMap<SettingData>, parse: string -> Guid, i: nat)
    requires i < |settings|
  {
    exists j :: i < j < |settings| && SettingKey(parse, settings[j]) == SettingKey(parse, settings[i])
  }

  /** Each entry that no later entry overrides is stored with both its values. */
  ghost predicate Holds(s: Stored, settings: QMap<SettingData>, parse: string -> Guid) {
    forall i :: 0 <= i < |settings| && !Overridden(settings, parse, i) ==>
      EntryHolds(s, SettingKey(parse, settings[i]), settings[i].1)
  }

  /** The entry's two values are stored, nothing else is changed. */
  ghost predicate Written(before: Stored, after: Stored, entry: (string, SettingData), parse: string -> Guid) {
    var key := SettingKey(parse, entry);
    after == before.(ac := before.ac[key := entry.1.ac], dc := before.dc[key := entry.1.dc])
  }

  lemma HoldsSnoc(before: Stored, after: Stored, settings: QMap<SettingData>, last: (string, SettingData),
                  parse: string -> Guid)
    requires Holds(before, settings, parse) && Written(before, after, last, parse)
    ensures Holds(after, settings + [last], parse)
  {
    var all, n := settings + [last], |settings|;
    assert all[n] == last;
    forall i | 0 <= i < n + 1 && !Overridden(all, parse, i)
      ensures EntryHolds(after, SettingKey(parse, all[i]), all[i].1)
    {
      if i < n {
        assert all[i] == settings[i];
        forall j | i < j < n ensures SettingKey(parse, settings[j]) != SettingKey(parse, settings[i]) {
          assert all[j] == settings[j];
        }
        assert EntryHolds(before, SettingKey(parse, settings[i]), settings[i].1);
        assert SettingKey(parse, all[n]) != SettingKey(parse, all[i]);
      }
    }
  }

  /** A value of -1 is not written where the setting has a value of that kind. */
  predicate ValuePossible(api: PowerApi, setting: Guid, data: SettingData) {
    !(data.ac == -1 && api.hasAC(setting)) && !(data.dc == -1 && api.hasDC(setting))
  }

  /** A setting that a reliable system takes. */
  predicate EntryPossible(api: PowerApi, entry: (string, SettingData)) {
    && api.parse(entry.1.groupGuid).data1 != 0 && api.parse(entry.0).data1 != 0
    && ValuePossible(api, api.parse(entry.0), entry.1)
  }

  predicate SettingsPossible(api: PowerApi, settings: QMap<SettingData>) {
    forall i :: 0 <= i < |settings| ==> EntryPossible(api, settings[i])
  }

  lemma SettingsPossibleSnoc(api: PowerApi, settings: QMap<SettingData>, k: nat)
    requires k < |settings|
    ensures SettingsPossible(api, settings[..k + 1]) <==>
      SettingsPossible(api, settings[..k]) && EntryPossible(api, settings[k])
  {
    assert forall i :: 0 <= i < k ==> settings[..k + 1][i] == settings[..k][i];
    assert settings[..k + 1][k] == settings[k];
  }

  ghost predicate WritesOn(calls: seq<Call>, g: Guid) {
    forall c :: c in calls ==> (c.WriteAC? || c.WriteDC?) && c.guid == g
  }

  /** Both values of an entry were passed to the system, whether or not it took them. A value that must not
      be written is not passed on, nor is anything for an unknown GUID. */
  predicate Attempted(api: PowerApi, calls: seq<Call>, g: Guid, entry: (string, SettingData)) {
    var key, data := SettingKey(api.parse, entry), entry.1;
    key.0.data1 != 0 && key.1.data1 != 0 ==> ValueAttempted(api, calls, g, key, data)
  }

  predicate ValueAttempted(api: PowerApi, calls: seq<Call>, g: Guid, key: (Guid, Guid), data: SettingData) {
    && ((data.ac == -1 && api.hasAC(key.1))
        || WriteAC(g, key, data.ac, true) in calls || WriteAC(g, key, data.ac, false) in calls)
    && ((data.dc == -1 && api.hasDC(key.1))
        || WriteDC(g, key, data.dc, true) in calls || WriteDC(g, key, data.dc, false) in calls)
  }

  /** One of the two values: not passed on if it is -1 and the setting has a value of its kind. */
  method SetACValue(api: PowerApi, g: Guid, setting: (Guid, Guid), value: int)
    returns (ok: bool, ghost calls: seq<Call>)
    requires api.Valid() && g in api.schemes
    modifies api`schemes, api`trace
    ensures api.Valid() && api.trace == old(api.trace) + calls
    ensures calls == if value == -1 && api.hasAC(setting.1) then [] else [WriteAC(g, setting, value, ok)]
    ensures ok ==> calls != []
    ensures api.reliable ==> (ok <==> calls != [])
    ensures api.schemes ==
      if ok then old(api.schemes)[g := old(api.schemes)[g].(ac := old(api.schemes)[g].ac[setting := value])]
      else old(api.schemes)
  {
    hide PowerApi.Valid;
    ok, calls := false, [];
    if !(value == -1 && api.hasAC(setting.1)) {
      ok := api.PowerWriteACValueIndex(g, setting, value);
      calls := [WriteAC(g, setting, value, ok)];
    }
  }

  /** One of the two values: not passed on if it is -1 and the setting has a value of its kind. */
  method SetDCValue(api: PowerApi, g: Guid, setting: (Guid, Guid), value: int)
    returns (ok: bool, ghost calls: seq<Call>)
    requires api.Valid() && g in api.schemes
    modifies api`schemes, api`trace
    ensures api.Valid() && api.trace == old(api.trace) + calls
    ensures calls == if value == -1 && api.hasDC(setting.1) then [] else [WriteDC(g, setting, value, ok)]
    ensures ok ==> calls != []
    ensures api.reliable ==> (ok <==> calls != [])
    ensures api.schemes ==
      if ok then old(api.schemes)[g := old(api.schemes)[g].(dc := old(api.schemes)[g].dc[setting := value])]
      else old(api.schemes)
  {
    hide PowerApi.Valid;
    ok, calls := false, [];
    if !(value == -1 && api.hasDC(setting.1)) {
      ok := api.PowerWriteDCValueIndex(g, setting, value);
      calls := [WriteDC(g, setting, value, ok)];
    }
  }

  /** `setPowerValue`: both values are attempted even when the first one fails. */
  method SetPowerValue(api: PowerApi, g: Guid, setting: (Guid, Guid), data: SettingData)
    returns (success: bool, ghost calls: seq<Call>)
    requires api.Valid() && g in api.schemes
    modifies api`schemes, api`trace
    ensures api.Valid() && api.trace == old(api.trace) + calls
    ensures WritesOn(calls, g) && ValueAttempted(api, calls, g, setting, data)
    ensures OnlyTouches(old(api.schemes), api.schemes, g) && api.schemes[g].name == old(api.schemes)[g].name
    ensures success ==> api.schemes[g] == old(api.schemes)[g].(
      ac := old(api.schemes)[g].ac[setting := data.ac],
      dc := old(api.schemes)[g].dc[setting := data.dc])
    ensures var s, s0 := api.schemes[g], old(api.schemes)[g];
      && (s.ac == s0.ac || s.ac == s0.ac[setting := data.ac])
      && (s.dc == s0.dc || s.dc == s0.dc[setting := data.dc])
    ensures success <==> ErrorsOf(calls) == {} && ValuePossible(api, setting.1, data)
    ensures success ==> !(data.ac == -1 && api.hasAC(setting.1)) && !(data.dc == -1 && api.hasDC(setting.1))
    ensures forall c :: c in calls && c.WriteAC? ==> c.value == data.ac && !(data.ac == -1 && api.hasAC(setting.1))
    ensures forall c :: c in calls && c.WriteDC? ==> c.value == data.dc && !(data.dc == -1 && api.hasDC(setting.1))
    ensures api.reliable ==> ErrorsOf(calls) == {}
  {
    hide PowerApi.Valid, ErrorsOf;
    ghost var acCalls, dcCalls;
    var acOk, dcOk;
    acOk, acCalls := SetACValue(api, g, setting, data.ac);
    dcOk, dcCalls := SetDCValue(api, g, setting, data.dc);
    success, calls := acOk && dcOk, acCalls + dcCalls;
    NoErrorsAllOk(calls);
  }

  /** One setting: nothing is written for an unknown GUID. */
  method WriteSetting(api: PowerApi, g: Guid, entry: (string, SettingData)) returns (ok: bool, ghost calls: seq<Call>)
    requires api.Valid() && g in api.schemes
    modifies api`schemes, api`trace
    ensures api.Valid() && api.trace == old(api.trace) + calls
    ensures WritesOn(calls, g) && Attempted(api, calls, g, entry)
    ensures OnlyTouches(old(api.schemes), api.schemes, g) && g in api.schemes
    ensures api.schemes[g].name == old(api.schemes)[g].name
    ensures ok ==> Written(old(api.schemes)[g], api.schemes[g], entry, api.parse)
    ensures ok ==>
      var key := (api.parse(entry.1.groupGuid), api.parse(entry.0));
      && key.0.data1 != 0 && key.1.data1 != 0 && key in api.schemes[g].ac && api.schemes[g].ac[key] == entry.1.ac
      && key in api.schemes[g].dc && api.schemes[g].dc[key] == entry.1.dc
    ensures api.parse(entry.1.groupGuid).data1 == 0 || api.parse(entry.0).data1 == 0 ==>
      !ok && api.schemes == old(api.schemes)
    ensures ok <==> ErrorsOf(calls) == {} && EntryPossible(api, entry)
    ensures api.reliable ==> ErrorsOf(calls) == {}
  {
    hide PowerApi.Valid, ErrorsOf;
    var data := entry.1;
    var subGroupGuid, settingGuid := api.parse(data.groupGuid), api.parse(entry.0);
    ok, calls := false, [];
    NoErrorsAllOk(calls);
    if subGroupGuid.data1 != 0 && settingGuid.data1 != 0 {
      ok, calls := SetPowerValue(api, g, (subGroupGuid, settingGuid), data);
    }
  }

  lemma NoSettings(api: PowerApi, schemes: Store, g: Guid, settings: QMap<SettingData>)
    requires g in schemes
    ensures Holds(schemes[g], settings[..0], api.parse) && SettingsPossible(api, settings[..0])
    ensures OnlyTouches(schemes, schemes, g) && ErrorsOf([]) == {} && WritesOn([], g)
    ensures AllAttempted(api, [], g, settings[..0])
  {
  }

  lemma TouchedTwice(before: Store, middle: Store, after: Store, g: Guid)
    requires g in before && OnlyTouches(before, middle, g) && OnlyTouches(middle, after, g)
    ensures OnlyTouches(before, after, g) && g in middle && g in after
  {
  }

  predicate AllAttempted(api: PowerApi, calls: seq<Call>, g: Guid, settings: QMap<SettingData>) {
    forall i :: 0 <= i < |settings| ==> Attempted(api, calls, g, settings[i])
  }

  lemma AttemptedMore(api: PowerApi, calls: seq<Call>, more: seq<Call>, g: Guid, settings: QMap<SettingData>)
    requires AllAttempted(api, calls, g, settings)
    ensures AllAttempted(api, calls + more, g, settings) && AllAttempted(api, more + calls, g, settings)
  {
    forall i | 0 <= i < |settings|
      ensures Attempted(api, calls + more, g, settings[i]) && Attempted(api, more + calls, g, settings[i])
    {
      assert Attempted(api, calls, g, settings[i]);
    }
  }

  lemma AttemptedOneMore(api: PowerApi, calls: seq<Call>, more: seq<Call>, g: Guid, settings: QMap<SettingData>,
                         entry: (string, SettingData))
    requires AllAttempted(api, calls, g, settings) && Attempted(api, more, g, entry)
    requires WritesOn(calls, g) && WritesOn(more, g)
    ensures AllAttempted(api, calls + more, g, settings + [entry]) && WritesOn(calls + more, g)
  {
    AttemptedMore(api, calls, more, g, settings);
    AttemptedMore(api, more, calls, g, [entry]) by {
      assert [entry][0] == entry;
    }
    var all := settings + [entry];
    forall i | 0 <= i < |all| ensures Attempted(api, calls + more, g, all[i]) {
      if i == |settings| { assert all[i] == [entry][0]; }
    }
  }

  /** Every setting of a scheme is attempted, whatever fails; an error is a refused write or an entry that
      cannot be written. */
  method WriteSettings(api: PowerApi, g: Guid, settings: QMap<SettingData>)
    returns (errors: set<DError>, ghost calls: seq<Call>)
    requires api.Valid() && g in api.schemes
    modifies api`schemes, api`trace
    ensures api.Valid() && api.trace == old(api.trace) + calls
    ensures WritesOn(calls, g) && AllAttempted(api, calls, g, settings)
    ensures OnlyTouches(old(api.schemes), api.schemes, g) && api.schemes[g].name == old(api.schemes)[g].name
    ensures errors <= {W_PWR_SCHEME}
    ensures errors == {} <==> ErrorsOf(calls) == {} && SettingsPossible(api, settings)
    ensures errors == {} ==> Holds(api.schemes[g], settings, api.parse)
    ensures api.reliable ==> ErrorsOf(calls) == {}
  {
    hide *;
    errors, calls := {}, [];
    NoSettings(api, api.schemes, g, settings);
    for k := 0 to |settings|
      invariant api.Valid() && api.trace == old(api.trace) + calls && WritesOn(calls, g)
      invariant AllAttempted(api, calls, g, settings[..k])
      invariant g in api.schemes && OnlyTouches(old(api.schemes), api.schemes, g)
      invariant api.schemes[g].name == old(api.schemes)[g].name
      invariant errors <= {W_PWR_SCHEME}
      invariant errors == {} <==> ErrorsOf(calls) == {} && SettingsPossible(api, settings[..k])
      invariant errors == {} ==> Holds(api.schemes[g], settings[..k], api.parse)
      invariant api.reliable ==> ErrorsOf(calls) == {}
    {
      ghost var middle := api.schemes;
      var ok;
      ghost var more;
      ok, more := WriteSetting(api, g, settings[k]);
      TouchedTwice(old(api.schemes), middle, api.schemes, g);
      ErrorsOfAppend(calls, more);
      SettingsPossibleSnoc(api, settings, k);
      assert settings[..k + 1] == settings[..k] + [settings[k]];
      AttemptedOneMore(api, calls, more, g, settings[..k], settings[k]);
      if ok && errors == {} { HoldsSnoc(middle[g], api.schemes[g], settings[..k], settings[k], api.parse); }
      if !ok { errors := errors + {W_PWR_SCHEME}; }
      calls := calls + more;
    }
    assert settings[..|settings|] == settings;
  }

  // ---------- one scheme of the request ----------

  ghost predicate GoodMap(guidMap: GuidMap, schemes: Store) {
    && (forall k :: k in guidMap ==> guidMap[k] in schemes)
    && (forall k, l :: k in guidMap && l in guidMap && k != l ==> guidMap[k] != guidMap[l])
  }

  /** Calls of a creation: from one base, to GUIDs that were not in use. */
  ghost predicate CreationCalls(calls: seq<Call>, base: Guid, before: Store) {
    forall c :: c in calls ==>
      match c
      case CreateAccess(_) => true
      case Duplicate(source, copy, _) => source == base && copy !in before
      case Rename(g, _, _) => g !in before
      case _ => false
  }

  /** What a failed creation leaves: nothing, or one copy of the base under a new GUID, if only the name
      could not be written. */
  ghost predicate LeftBehind(calls: seq<Call>, base: Guid, before: Store, after: Store) {
    || (Unnamed(calls) == {} && after == before)
    || exists g :: Unnamed(calls) == {g} && g !in before && base in before && after == before[g := before[base]]
  }

  lemma CreationStart(base: Guid, before: Store)
    ensures CreationCalls([], base, before) && ErrorsOf([]) == {} && Unnamed([]) == {}
    ensures LeftBehind([], base, before, before)
  {
  }

  lemma CreationStep(calls: seq<Call>, c: Call, base: Guid, before: Store)
    requires CreationCalls(calls, base, before) && CreationCalls([c], base, before) && ErrorsOf(calls) == {}
    ensures CreationCalls(calls + [c], base, before)
    ensures ErrorsOf(calls + [c]) == if c.ok then {} else {W_PWR_CREATE_SCHEMES}
    ensures Unnamed(calls + [c]) == if c.Rename? && !c.ok then {c.guid} else {}
  {
    assert c in [c];
    ErrorsOfAppend(calls, [c]);
    UnnamedAppend(calls, [c]);
    NoErrorsAllOk(calls);
    assert ErrorsOf([c]) == if c.ok then {} else {ErrorOf(c)};
  }

  /** `duplicatePowerScheme`: a duplicate whose name cannot be written is left behind. */
  method DuplicatePowerScheme(api: PowerApi, source: Guid, name: string)
    returns (guid: Option<Guid>, ghost calls: seq<Call>)
    requires api.Valid()
    modifies api`schemes, api`trace
    ensures api.Valid() && api.trace == old(api.trace) + calls && CreationCalls(calls, source, old(api.schemes))
    ensures ErrorsOf(calls) == if guid.Some? then {} else {W_PWR_CREATE_SCHEMES}
    ensures guid.Some? ==>
      (source in old(api.schemes) && guid.value !in old(api.schemes) && Unnamed(calls) == {}
       && api.schemes == old(api.schemes)[guid.value := old(api.schemes)[source].(name := name)])
    ensures guid.None? ==> LeftBehind(calls, source, old(api.schemes), api.schemes)
    ensures var n := |old(api.trace)|;
      guid.None? && api.schemes != old(api.schemes) <==>
        !api.reliable && source in old(api.schemes) && api.fate(n) && api.fate(n + 1) && !api.fate(n + 2)
    ensures api.reliable && source in old(api.schemes) ==> guid.Some?
  {
    hide PowerApi.Valid, ErrorsOf, Unnamed;
    ghost var before := api.schemes;
    CreationStart(source, before);
    CreationStep([], CreateAccess(true), source, before);
    CreationStep([], CreateAccess(false), source, before);
    var ok := api.CreateAccessCheck();
    calls := [CreateAccess(ok)];
    assert [] + calls == calls;
    if !ok { return None, calls; }
    var g;
    ok, g := api.PowerDuplicateScheme(source);
    CreationStep(calls, Duplicate(source, g, ok), source, before);
    calls := calls + [Duplicate(source, g, ok)];
    if !ok { return None, calls; }
    ok := api.PowerWriteFriendlyName(g, name);
    CreationStep(calls, Rename(g, name, ok), source, before);
    calls := calls + [Rename(g, name, ok)];
    assert api.trace == old(api.trace) + calls;
    assert !ok ==> api.schemes == before[g := before[source]] && api.schemes != before;
    guid := if ok then Some(g) else None;
  }

  /** `CreatePowerScheme`: nothing to duplicate from is a failure. */
  method CreatePowerScheme(api: PowerApi, guidMap: GuidMap, base: Guid, key: string, name: string)
    returns (ok: bool, updated: GuidMap, ghost calls: seq<Call>)
    requires api.Valid() && GoodMap(guidMap, api.schemes) && key !in guidMap
    modifies api`schemes, api`trace
    ensures api.Valid() && api.trace == old(api.trace) + calls && CreationCalls(calls, base, old(api.schemes))
    ensures GoodMap(updated, api.schemes) && ErrorsOf(calls) <= {W_PWR_CREATE_SCHEMES}
    ensures ok <==> base.data1 != 0 && ErrorsOf(calls) == {}
    ensures base.data1 == 0 ==> calls == []
    ensures !ok ==> updated == guidMap && LeftBehind(calls, base, old(api.schemes), api.schemes)
    ensures ok ==>
      (key in updated && updated == guidMap[key := updated[key]] && Unnamed(calls) == {}
       && base in old(api.schemes) && updated[key] !in old(api.schemes)
       && api.schemes == old(api.schemes)[updated[key] := old(api.schemes)[base].(name := name)])
    ensures var n := |old(api.trace)|;
      !ok && api.schemes != old(api.schemes) <==>
        base.data1 != 0 && !api.reliable && base in old(api.schemes)
        && api.fate(n) && api.fate(n + 1) && !api.fate(n + 2)
    ensures api.reliable && (base.data1 != 0 ==> base in old(api.schemes)) ==> ErrorsOf(calls) == {}
  {
    hide PowerApi.Valid, ErrorsOf, Unnamed, CreationCalls;
    ok, updated, calls := false, guidMap, [];
    CreationStart(base, api.schemes);
    if base.data1 != 0 {
      var duplicateGuid;
      duplicateGuid, calls := DuplicatePowerScheme(api, base, name);
      ok := duplicateGuid.Some?;
      if ok { updated := guidMap[key := duplicateGuid.value]; }
    }
  }

  /** A creation that fails at the name leaves a second scheme that no key names. */
  method LeftoverWitness(g: Guid, s: Stored) returns (api: PowerApi, ok: bool, updated: GuidMap)
    requires g.data1 != 0
    ensures !ok && updated == map["balanced" := g]
    ensures exists h :: h != g && api.schemes == map[g := s, h := s]
  {
    api := new PowerApi(map[g := s], g, (_: Guid) => s, (_: string) => g, (_: Guid) => false, (_: Guid) => false,
                        (n: nat) => n != 2, false);
    assert "new"[0] != "balanced"[0];
    ghost var calls;
    ok, updated, calls := CreatePowerScheme(api, map["balanced" := g], g, "new", "New");
    assert LeftBehind(calls, g, map[g := s], api.schemes);
  }

  /** What the request asks of one scheme, once it is identified with a GUID. */
  ghost predicate Settled(api: PowerApi, s: Stored, wasInstalled: bool, g: Guid, scheme: PowerScheme)
  {
    if scheme.resetFlag && wasInstalled then s == api.defaults(g)
    else Holds(s, scheme.settings, api.parse) && (wasInstalled || s.name == scheme.friendlyName)
  }

  ghost function TargetOf(guidMap: GuidMap, key: string): Guid {
    if key in guidMap then guidMap[key] else NO_GUID
  }

  /** Calls made for one requested scheme: a creation, and everything else on its GUID. */
  ghost predicate CallsFor(calls: seq<Call>, base: Guid, before: Store, guidMap': GuidMap, key: string) {
    forall c :: c in calls ==>
      match c
      case CreateAccess(_) => true
      case Duplicate(source, copy, _) => source == base && base.data1 != 0 && copy !in before
      case Rename(g, _, _) => g !in before
      case Activate(_, _) => false
      case Delete(_, _) => false
      case _ => key in guidMap' && c.guid == guidMap'[key]
  }

  /** What handling one kept scheme does to the GUID map and the store: a new key only for a success, and no
      new scheme but the key's or, after a failed creation, one left behind. */
  ghost predicate Updated(api: PowerApi, entry: (string, PowerScheme), guidMap: GuidMap, schemes: Store,
                          guidMap': GuidMap, schemes': Store, calls: seq<Call>)
  {
    var key := entry.0;
    && GoodMap(guidMap', schemes')
    && (key in guidMap ==> guidMap' == guidMap)
    && (key !in guidMap && guidMap' != guidMap ==>
          key in guidMap' && guidMap' == guidMap[key := guidMap'[key]] && guidMap'[key] !in schemes)
    && schemes'.Keys == schemes.Keys + (if key in guidMap' then {guidMap'[key]} else Unnamed(calls))
    && (key in guidMap' ==> Unnamed(calls) == {})
    && (forall g, h :: g in Unnamed(calls) && h in Unnamed(calls) ==> g == h && g !in schemes)
    && (forall h :: h in schemes && (key in guidMap ==> h != guidMap[key]) ==> schemes'[h] == schemes[h])
  }

  /** The scheme is asked to be reset and can be. */
  predicate Resets(wasInstalled: bool, scheme: PowerScheme) {
    scheme.resetFlag && wasInstalled
  }

  /** An entry that cannot be written was reached. */
  ghost predicate Refused(api: PowerApi, entry: (string, PowerScheme), wasInstalled: bool, guidMap: GuidMap,
                          calls: seq<Call>)
  {
    && entry.0 in guidMap && !Resets(wasInstalled, entry.1)
    && Access(guidMap[entry.0], true) in calls && !SettingsPossible(api, entry.1.settings)
  }

  /** Whatever failed before, the scheme's reset was tried, or its access checked and then all its settings
      attempted. */
  ghost predicate Handled(api: PowerApi, entry: (string, PowerScheme), wasInstalled: bool, guidMap: GuidMap,
                          calls: seq<Call>)
  {
    entry.0 in guidMap ==>
      var g := guidMap[entry.0];
      if Resets(wasInstalled, entry.1) then
        || CanRestore(g, false) in calls
        || (CanRestore(g, true) in calls && (Restore(g, true) in calls || Restore(g, false) in calls))
      else
        || Access(g, false) in calls
        || (Access(g, true) in calls && AllAttempted(api, calls, g, entry.1.settings))
  }

  /** The errors of one kept scheme: failed calls, a creation that did not succeed, and entries that cannot be
      written; without any the scheme is as requested. */
  ghost predicate Told(api: PowerApi, entry: (string, PowerScheme), guidMap: GuidMap, guidMap': GuidMap,
                       schemes': Store, calls: seq<Call>, errs: set<DError>)
  {
    var key := entry.0;
    && errs == ErrorsOf(calls) + (if key in guidMap' then {} else {W_PWR_CREATE_SCHEMES})
               + (if Refused(api, entry, key in guidMap, guidMap', calls) then {W_PWR_SCHEME} else {})
    && (key in guidMap' ==> W_PWR_CREATE_SCHEMES !in errs)
    && (errs == {} ==>
          guidMap'[key] in schemes' && Settled(api, schemes'[guidMap'[key]], key in guidMap, guidMap'[key], entry.1))
  }

  /** What a reliable system can do for a scheme: it is installed or can be duplicated, and its
      settings are taken or not needed. */
  predicate SchemePossible(api: PowerApi, wasInstalled: bool, base: Guid, scheme: PowerScheme) {
    (wasInstalled || base.data1 != 0) && (Resets(wasInstalled, scheme) || SettingsPossible(api, scheme.settings))
  }

  /** Access check, then every setting. */
  method ConfigureScheme(api: PowerApi, g: Guid, settings: QMap<SettingData>)
    returns (errors: set<DError>, ghost calls: seq<Call>)
    requires api.Valid() && g in api.schemes
    modifies api`schemes, api`trace
    ensures api.Valid() && api.trace == old(api.trace) + calls && Configures(calls, g)
    ensures Access(g, false) in calls || (Access(g, true) in calls && AllAttempted(api, calls, g, settings))
    ensures OnlyTouches(old(api.schemes), api.schemes, g) && api.schemes[g].name == old(api.schemes)[g].name
    ensures errors == ErrorsOf(calls) +
      (if Access(g, true) in calls && !SettingsPossible(api, settings) then {W_PWR_SCHEME} else {})
    ensures W_PWR_CREATE_SCHEMES !in errors && Unnamed(calls) == {}
    ensures errors == {} ==> Holds(api.schemes[g], settings, api.parse) && SettingsPossible(api, settings)
    ensures api.reliable ==> ErrorsOf(calls) == {}
  {
    hide *;
    TouchesNothing(api.schemes, g);
    var access := api.SchemeAccessCheck(g);
    if !access {
      AccessDenied(g);
      return {W_PWR_NO_SCHEME_ACCESS}, [Access(g, false)];
    }
    ghost var writes;
    errors, writes := WriteSettings(api, g, settings);
    AccessGranted(g, writes);
    AttemptedMore(api, writes, [Access(g, true)], g, settings);
    calls := [Access(g, true)] + writes;
    assert errors == {} || errors == {W_PWR_SCHEME};
  }

  /** The calls of a configuration. */
  ghost predicate Configures(calls: seq<Call>, g: Guid) {
    forall c :: c in calls ==> (c.Access? || c.WriteAC? || c.WriteDC?) && c.guid == g
  }

  lemma TouchesNothing(schemes: Store, g: Guid)
    requires g in schemes
    ensures OnlyTouches(schemes, schemes, g)
  {
  }

  lemma AccessDenied(g: Guid)
    ensures var calls := [Access(g, false)];
      && Configures(calls, g) && ErrorsOf(calls) == {W_PWR_NO_SCHEME_ACCESS} && Unnamed(calls) == {}
      && Access(g, false) in calls && Access(g, true) !in calls
  {
    assert Access(g, false) in [Access(g, false)];
  }

  lemma AccessGranted(g: Guid, writes: seq<Call>)
    requires WritesOn(writes, g)
    ensures var calls := [Access(g, true)] + writes;
      && Configures(calls, g) && ErrorsOf(calls) == ErrorsOf(writes) <= {W_PWR_SCHEME} && Unnamed(calls) == {}
      && Access(g, true) in calls
  {
    ErrorsOfAppend([Access(g, true)], writes);
    NoErrorsAllOk([Access(g, true)]);
    assert Access(g, true) in [Access(g, true)];
  }

  /** `PowerCanRestoreIndividualDefaultPowerScheme` and then the reset. */
  method ResetScheme(api: PowerApi, g: Guid) returns (errors: set<DError>, ghost calls: seq<Call>)
    requires api.Valid() && g in api.schemes
    modifies api`schemes, api`trace
    ensures api.Valid() && api.trace == old(api.trace) + calls && Resetting(calls, g) && errors == ErrorsOf(calls)
    ensures OnlyTouches(old(api.schemes), api.schemes, g)
    ensures errors == {} ==> api.schemes[g] == api.defaults(g)
    ensures errors != {} ==> errors == {W_PWR_RESET_INDIVIDUAL_DEFAULT} && api.schemes == old(api.schemes)
    ensures api.reliable ==> errors == {}
  {
    hide PowerApi.Valid;
    var ok := api.PowerCanRestore(g);
    calls := [CanRestore(g, ok)];
    if ok {
      ok := api.PowerRestore(g);
      calls := calls + [Restore(g, ok)];
    }
    errors := if ok then {} else {W_PWR_RESET_INDIVIDUAL_DEFAULT};
    assert calls[|calls| - 1] in calls;
  }

  /** The calls of a reset. */
  ghost predicate Resetting(calls: seq<Call>, g: Guid) {
    && (forall c :: c in calls ==> (c.CanRestore? || c.Restore?) && c.guid == g)
    && (CanRestore(g, false) in calls
        || (CanRestore(g, true) in calls && (Restore(g, true) in calls || Restore(g, false) in calls)))
  }

  /** The body of the main loop for a scheme that is not to be deleted. */
  method UpdateScheme(api: PowerApi, guidMap: GuidMap, base: Guid, key: string, scheme: PowerScheme)
    returns (updated: GuidMap, errors: set<DError>, ghost calls: seq<Call>)
    requires api.Valid() && GoodMap(guidMap, api.schemes) && !scheme.deleteFlag
    modifies api`schemes, api`trace
    ensures api.Valid() && api.trace == old(api.trace) + calls
    ensures Updated(api, (key, scheme), guidMap, old(api.schemes), updated, api.schemes, calls)
    ensures Told(api, (key, scheme), guidMap, updated, api.schemes, calls, errors)
    ensures Handled(api, (key, scheme), key in guidMap, updated, calls)
    ensures CallsFor(calls, base, old(api.schemes), updated, key)
    ensures scheme.resetFlag && key in guidMap && errors == {} ==>
      guidMap[key] in api.schemes && api.schemes[guidMap[key]] == api.defaults(guidMap[key])
    ensures !(scheme.resetFlag && key in guidMap) && errors == {} ==>
      key in updated && updated[key] in api.schemes && Holds(api.schemes[updated[key]], scheme.settings, api.parse)
    ensures key !in guidMap && errors == {} ==>
      key in updated && updated[key] in api.schemes && api.schemes[updated[key]].name == scheme.friendlyName
    ensures errors == {} ==> SchemePossible(api, key in guidMap, base, scheme)
    ensures api.reliable && (base.data1 != 0 ==> base in old(api.schemes)) ==> ErrorsOf(calls) == {}
    ensures api.reliable && (base.data1 != 0 ==> base in old(api.schemes))
            && SchemePossible(api, key in guidMap, base, scheme) ==>
      errors == {}
  {
    hide *;
    updated, errors, calls := guidMap, {}, [];
    ghost var before := api.schemes;
    ghost var entry, wasInstalled := (key, scheme), key in guidMap;
    ResetsIff(wasInstalled, scheme);
    if scheme.resetFlag && key in guidMap {
      KeyThere(guidMap, before, key);
      errors, calls := ResetScheme(api, guidMap[key]);
      StillThere(before, api.schemes, guidMap[key]);
      UpdatedByReset(api, entry, guidMap, before, api.schemes, errors, base, calls);
      return;
    }
    CreationStart(base, before);
    if key !in guidMap {
      var ok;
      ok, updated, calls := CreatePowerScheme(api, guidMap, base, key, scheme.friendlyName);
      if !ok {
        NotCreated(api, entry, guidMap, before, api.schemes, base, calls);
        return updated, {W_PWR_CREATE_SCHEMES}, calls;
      }
      ReadyCreated(entry, guidMap, before, updated, api.schemes, base, calls);
    } else {
      ReadyInstalled(entry, guidMap, before, base);
    }
    ghost var middle, made, more := api.schemes, calls, [];
    KeyThere(updated, middle, key);
    errors, more := ConfigureScheme(api, updated[key], scheme.settings);
    StillThere(middle, api.schemes, updated[key]);
    calls := made + more;
    UpdatedByConfigure(api, entry, guidMap, before, updated, middle, api.schemes, base, made, more);
    ToldByConfigure(api, entry, guidMap, before, updated, middle, api.schemes, errors, base, made, more);
  }

  lemma StillThere(before: Store, after: Store, g: Guid)
    requires OnlyTouches(before, after, g)
    ensures g in after
  {
  }

  lemma ResetsIff(wasInstalled: bool, scheme: PowerScheme)
    ensures Resets(wasInstalled, scheme) <==> scheme.resetFlag && wasInstalled
  {
  }

  lemma KeyThere(guidMap: GuidMap, schemes: Store, key: string)
    requires GoodMap(guidMap, schemes) && key in guidMap
    ensures guidMap[key] in schemes
  {
  }

  lemma UpdatedByReset(api: PowerApi, entry: (string, PowerScheme), guidMap: GuidMap, before: Store,
                       after: Store, errs: set<DError>, base: Guid, calls: seq<Call>)
    requires GoodMap(guidMap, before) && entry.0 in guidMap && Resets(true, entry.1)
    requires OnlyTouches(before, after, guidMap[entry.0])
    requires Resetting(calls, guidMap[entry.0]) && errs == ErrorsOf(calls)
    requires errs == {} || errs == {W_PWR_RESET_INDIVIDUAL_DEFAULT}
    requires errs == {} ==> after[guidMap[entry.0]] == api.defaults(guidMap[entry.0])
    ensures Updated(api, entry, guidMap, before, guidMap, after, calls)
    ensures Told(api, entry, guidMap, guidMap, after, calls, errs)
    ensures Handled(api, entry, true, guidMap, calls) && CallsFor(calls, base, before, guidMap, entry.0)
    ensures SchemePossible(api, true, base, entry.1)
  {
    hide ErrorsOf, SettingsPossible, Holds;
  }

  lemma NotCreated(api: PowerApi, entry: (string, PowerScheme), guidMap: GuidMap, before: Store,
                   after: Store, base: Guid, calls: seq<Call>)
    requires GoodMap(guidMap, before) && entry.0 !in guidMap && ErrorsOf(calls) <= {W_PWR_CREATE_SCHEMES}
    requires CreationCalls(calls, base, before) && LeftBehind(calls, base, before, after)
    requires base.data1 == 0 ==> calls == []
    ensures Updated(api, entry, guidMap, before, guidMap, after, calls)
    ensures Told(api, entry, guidMap, guidMap, after, calls, {W_PWR_CREATE_SCHEMES})
    ensures Handled(api, entry, false, guidMap, calls) && CallsFor(calls, base, before, guidMap, entry.0)
    ensures SchemePossible(api, false, base, entry.1) ==> base.data1 != 0
  {
    hide ErrorsOf, Unnamed, SettingsPossible;
  }

  /** The state between a creation, if one was needed, and the configuration. */
  ghost predicate Ready(entry: (string, PowerScheme), guidMap: GuidMap, before: Store, updated: GuidMap,
                        middle: Store, base: Guid, made: seq<Call>)
  {
    var key := entry.0;
    && GoodMap(updated, middle) && key in updated && ErrorsOf(made) == {} && Unnamed(made) == {}
    && CreationCalls(made, base, before) && !Resets(key in guidMap, entry.1)
    && (key in guidMap ==> updated == guidMap && middle == before && made == [])
    && (key !in guidMap ==>
          && updated == guidMap[key := updated[key]] && updated[key] !in before && base.data1 != 0
          && base in before && middle == before[updated[key] := before[base].(name := entry.1.friendlyName)])
  }

  lemma ReadyInstalled(entry: (string, PowerScheme), guidMap: GuidMap, before: Store, base: Guid)
    requires GoodMap(guidMap, before) && entry.0 in guidMap && !entry.1.resetFlag
    ensures Ready(entry, guidMap, before, guidMap, before, base, [])
  {
  }

  lemma ReadyCreated(entry: (string, PowerScheme), guidMap: GuidMap, before: Store, updated: GuidMap, middle: Store,
                     base: Guid, made: seq<Call>)
    requires GoodMap(updated, middle) && entry.0 !in guidMap && entry.0 in updated && base in before
    requires ErrorsOf(made) == {} && Unnamed(made) == {} && CreationCalls(made, base, before) && base.data1 != 0
    requires updated == guidMap[entry.0 := updated[entry.0]] && updated[entry.0] !in before
    requires middle == before[updated[entry.0] := before[base].(name := entry.1.friendlyName)]
    ensures Ready(entry, guidMap, before, updated, middle, base, made)
  {
  }

  lemma UpdatedByConfigure(api: PowerApi, entry: (string, PowerScheme), guidMap: GuidMap, before: Store,
                           updated: GuidMap, middle: Store, after: Store, base: Guid, made: seq<Call>,
                           more: seq<Call>)
    requires Ready(entry, guidMap, before, updated, middle, base, made)
    requires OnlyTouches(middle, after, updated[entry.0])
    requires Configures(more, updated[entry.0]) && Unnamed(more) == {}
    ensures Updated(api, entry, guidMap, before, updated, after, made + more)
    ensures CallsFor(made + more, base, before, updated, entry.0)
  {
    hide Unnamed, ErrorsOf;
    UnnamedAppend(made, more);
  }

  lemma ToldByConfigure(api: PowerApi, entry: (string, PowerScheme), guidMap: GuidMap, before: Store,
                        updated: GuidMap, middle: Store, after: Store, errs: set<DError>, base: Guid,
                        made: seq<Call>, more: seq<Call>)
    requires Ready(entry, guidMap, before, updated, middle, base, made)
    requires var g := updated[entry.0];
      && OnlyTouches(middle, after, g) && after[g].name == middle[g].name
      && (Access(g, false) in more || (Access(g, true) in more && AllAttempted(api, more, g, entry.1.settings)))
      && errs == ErrorsOf(more) +
           (if Access(g, true) in more && !SettingsPossible(api, entry.1.settings) then {W_PWR_SCHEME} else {})
      && (errs == {} ==> Holds(after[g], entry.1.settings, api.parse) && SettingsPossible(api, entry.1.settings))
    requires W_PWR_CREATE_SCHEMES !in errs
    ensures Told(api, entry, guidMap, updated, after, made + more, errs) && ErrorsOf(made + more) == ErrorsOf(more)
    ensures Handled(api, entry, entry.0 in guidMap, updated, made + more)
    ensures SchemePossible(api, entry.0 in guidMap, base, entry.1) <==> SettingsPossible(api, entry.1.settings)
  {
    hide ErrorsOf, Unnamed, SettingsPossible, AllAttempted, Holds;
    ErrorsOfAppend(made, more);
    if AllAttempted(api, more, updated[entry.0], entry.1.settings) {
      AttemptedMore(api, more, made, updated[entry.0], entry.1.settings);
    }
  }
}
