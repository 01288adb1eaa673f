/** The Windows power API as src/Device/OS/Windows/OSWindows.cpp uses it: the system's power schemes, and a
    trace of every call. */
module PowerSystem {
  import opened Basics

  /** `Data1 == 0` is the source's test for "no GUID". */
  datatype Guid = Guid(data1: nat, rest: nat)

  const NO_GUID := Guid(0, 0)

  datatype DError =
    | W_PWR_RESET_INDIVIDUAL_DEFAULT
    | W_PWR_CREATE_SCHEMES
    | W_PWR_NO_SCHEME_ACCESS
    | W_PWR_SCHEME
    | W_PWR_ACTIVE_SCHEME
    | W_PWR_DELETE_SCHEMES

  /** A scheme as the operating system holds it; settings are keyed by subgroup and setting. */
  datatype Stored = Stored(name: string, ac: map<(Guid, Guid), int>, dc: map<(Guid, Guid), int>)

  type Store = map<Guid, Stored>

  /** One call and its outcome. */
  datatype Call =
    | CreateAccess(ok: bool)
    | Duplicate(source: Guid, copy: Guid, ok: bool)
    | Rename(guid: Guid, name: string, ok: bool)
    | CanRestore(guid: Guid, ok: bool)
    | Restore(guid: Guid, ok: bool)
    | Access(guid: Guid, ok: bool)
    | WriteAC(guid: Guid, setting: (Guid, Guid), value: int, ok: bool)
    | WriteDC(guid: Guid, setting: (Guid, Guid), value: int, ok: bool)
    | Activate(guid: Guid, ok: bool)
    | Delete(guid: Guid, ok: bool)

  /** The error that a failure of this call is reported as. */
  function ErrorOf(c: Call): DError {
    match c
    case CreateAccess(_) => W_PWR_CREATE_SCHEMES
    case Duplicate(_, _, _) => W_PWR_CREATE_SCHEMES
    case Rename(_, _, _) => W_PWR_CREATE_SCHEMES
    case CanRestore(_, _) => W_PWR_RESET_INDIVIDUAL_DEFAULT
    case Restore(_, _) => W_PWR_RESET_INDIVIDUAL_DEFAULT
    case Access(_, _) => W_PWR_NO_SCHEME_ACCESS
    case WriteAC(_, _, _, _) => W_PWR_SCHEME
    case WriteDC(_, _, _, _) => W_PWR_SCHEME
    case Activate(_, _) => W_PWR_ACTIVE_SCHEME
    case Delete(_, _) => W_PWR_DELETE_SCHEMES
  }

  ghost function ErrorsOf(calls: seq<Call>): set<DError> {
    set c | c in calls && !c.ok :: ErrorOf(c)
  }

  lemma ErrorsOfAppend(a: seq<Call>, b: seq<Call>)
    ensures ErrorsOf(a + b) == ErrorsOf(a) + ErrorsOf(b)
  {
    assert forall c :: c in a + b <==> c in a || c in b;
  }

  lemma NoErrorsAllOk(calls: seq<Call>)
    ensures ErrorsOf(calls) == {} <==> forall c :: c in calls ==> c.ok
  {
    if c :| c in calls && !c.ok { assert ErrorOf(c) in ErrorsOf(calls); }
  }

  /** Duplicates whose name could not be written. */
  ghost function Unnamed(calls: seq<Call>): set<Guid> {
    set c | c in calls && c.Rename? && !c.ok :: c.guid
  }

  lemma UnnamedAppend(a: seq<Call>, b: seq<Call>)
    ensures Unnamed(a + b) == Unnamed(a) + Unnamed(b)
  {
    assert forall c :: c in a + b <==> c in a || c in b;
  }

  lemma NoErrorsNoneUnnamed(calls: seq<Call>)
    requires ErrorsOf(calls) == {}
    ensures Unnamed(calls) == {}
  {
    NoErrorsAllOk(calls);
  }

  // ---------- what calls do ----------

  /** The store after one call. */
  function Effect(defaults: Guid -> Stored, s: Store, c: Call): Store {
    if !c.ok then s
    else match c
      case Duplicate(source, copy, _) => if source in s then s[copy := s[source]] else s
      case Rename(g, name, _) => if g in s then s[g := s[g].(name := name)] else s
      case Restore(g, _) => if g in s then s[g := defaults(g)] else s
      case WriteAC(g, setting, value, _) => if g in s then s[g := s[g].(ac := s[g].ac[setting := value])] else s
      case WriteDC(g, setting, value, _) => if g in s then s[g := s[g].(dc := s[g].dc[setting := value])] else s
      case Delete(g, _) => s - {g}
      case _ => s
  }

  function Replay(defaults: Guid -> Stored, s: Store, calls: seq<Call>): Store {
    if calls == [] then s else Effect(defaults, Replay(defaults, s, calls[..|calls| - 1]), calls[|calls| - 1])
  }

  function LastActive(active: Guid, calls: seq<Call>): Guid {
    if calls == [] then active
    else
      var c := calls[|calls| - 1];
      if c.Activate? && c.ok then c.guid else LastActive(active, calls[..|calls| - 1])
  }

  lemma {:induction false} ReplayAppend(defaults: Guid -> Stored, s: Store, active: Guid, a: seq<Call>, b: seq<Call>)
    ensures Replay(defaults, s, a + b) == Replay(defaults, Replay(defaults, s, a), b)
    ensures LastActive(active, a + b) == LastActive(LastActive(active, a), b)
  {
    if b == [] {
      assert a + b == a;
    } else {
      assert (a + b)[..|a + b| - 1] == a + b[..|b| - 1];
      ReplayAppend(defaults, s, active, a, b[..|b| - 1]);
    }
  }

  lemma ReplaySnoc(defaults: Guid -> Stored, s: Store, active: Guid, calls: seq<Call>, c: Call)
    ensures Replay(defaults, s, calls + [c]) == Effect(defaults, Replay(defaults, s, calls), c)
    ensures LastActive(active, calls + [c]) == if c.Activate? && c.ok then c.guid else LastActive(active, calls)
  {
    assert (calls + [c])[..|calls|] == calls;
  }

  /** There is always a GUID not in use. */
  lemma {:induction false} DataBound(used: set<Guid>) returns (m: nat)
    ensures forall g :: g in used ==> g.data1 < m
    decreases |used|
  {
    if used == {} {
      m := 0;
    } else {
      var x := Pick(used);
      m := DataBound(used - {x});
      if m <= x.data1 { m := x.data1 + 1; }
    }
  }

  /** Any call may fail, and then changes nothing: `fate` says which of them, by number. A reliable
      system refuses no call on an installed scheme, except to delete the active one. Every call, and
      nothing else, goes into the trace, and the store is what the trace made of the initial one. */
  class PowerApi {
    const initial: Store
    const initialActive: Guid
    var schemes: Store
    var active: Guid
    var trace: seq<Call>
    const defaults: Guid -> Stored
    const parse: string -> Guid
    const hasAC: Guid -> bool
    const hasDC: Guid -> bool
    const fate: nat -> bool
    const reliable: bool

    ghost predicate Valid()
      reads this
    {
      schemes == Replay(defaults, initial, trace) && active == LastActive(initialActive, trace)
    }

    constructor (schemes: Store, active: Guid, defaults: Guid -> Stored, parse: string -> Guid,
                 hasAC: Guid -> bool, hasDC: Guid -> bool, fate: nat -> bool, reliable: bool)
      ensures Valid() && this.schemes == schemes && this.active == active && trace == []
      ensures this.defaults == defaults && this.parse == parse && this.hasAC == hasAC && this.hasDC == hasDC
      ensures this.fate == fate && this.reliable == reliable
    {
      initial, initialActive, this.schemes, this.active, trace := schemes, active, schemes, active, [];
      this.defaults, this.parse, this.hasAC, this.hasDC := defaults, parse, hasAC, hasDC;
      this.fate, this.reliable := fate, reliable;
    }

    /** `PowerSettingAccessCheck(ACCESS_CREATE_SCHEME, nullptr)`. */
    method CreateAccessCheck() returns (ok: bool)
      requires Valid()
      modifies this`trace
      ensures Valid() && trace == old(trace) + [CreateAccess(ok)]
      ensures ok <==> fate(|old(trace)|) || reliable
    {
      ok := fate(|trace|) || reliable;
      ReplaySnoc(defaults, initial, initialActive, trace, CreateAccess(ok));
      trace := trace + [CreateAccess(ok)];
    }

    /** `PowerSettingAccessCheck(ACCESS_SCHEME, &g)`. */
    method SchemeAccessCheck(g: Guid) returns (ok: bool)
      requires Valid()
      modifies this`trace
      ensures Valid() && trace == old(trace) + [Access(g, ok)]
      ensures ok <==> fate(|old(trace)|) || reliable
    {
      ok := fate(|trace|) || reliable;
      ReplaySnoc(defaults, initial, initialActive, trace, Access(g, ok));
      trace := trace + [Access(g, ok)];
    }

    /** A duplicate gets a GUID of its own. */
    method PowerDuplicateScheme(source: Guid) returns (ok: bool, g: Guid)
      requires Valid()
      modifies this`schemes, this`trace
      ensures Valid() && trace == old(trace) + [Duplicate(source, g, ok)]
      ensures ok <==> source in old(schemes) && (fate(|old(trace)|) || reliable)
      ensures g !in old(schemes)
      ensures schemes == if ok then old(schemes)[g := old(schemes)[source]] else old(schemes)
    {
      ghost var m := DataBound(schemes.Keys);
      assert Guid(m, 0) !in schemes.Keys;
      g :| g !in schemes;
      ok := (fate(|trace|) || reliable) && source in schemes;
      ReplaySnoc(defaults, initial, initialActive, trace, Duplicate(source, g, ok));
      trace := trace + [Duplicate(source, g, ok)];
      if ok { schemes := schemes[g := schemes[source]]; }
    }

    method PowerWriteFriendlyName(g: Guid, name: string) returns (ok: bool)
      requires Valid() && g in schemes
      modifies this`schemes, this`trace
      ensures Valid() && trace == old(trace) + [Rename(g, name, ok)]
      ensures ok <==> fate(|old(trace)|) || reliable
      ensures schemes == if ok then old(schemes)[g := old(schemes)[g].(name := name)] else old(schemes)
    {
      ok := fate(|trace|) || reliable;
      ReplaySnoc(defaults, initial, initialActive, trace, Rename(g, name, ok));
      trace := trace + [Rename(g, name, ok)];
      if ok { schemes := schemes[g := schemes[g].(name := name)]; }
    }

    /** `PowerCanRestoreIndividualDefaultPowerScheme`. */
    method PowerCanRestore(g: Guid) returns (ok: bool)
      requires Valid()
      modifies this`trace
      ensures Valid() && trace == old(trace) + [CanRestore(g, ok)]
      ensures ok <==> fate(|old(trace)|) || reliable
    {
      ok := fate(|trace|) || reliable;
      ReplaySnoc(defaults, initial, initialActive, trace, CanRestore(g, ok));
      trace := trace + [CanRestore(g, ok)];
    }

    /** `PowerRestoreIndividualDefaultPowerScheme`. */
    method PowerRestore(g: Guid) returns (ok: bool)
      requires Valid() && g in schemes
      modifies this`schemes, this`trace
      ensures Valid() && trace == old(trace) + [Restore(g, ok)]
      ensures ok <==> fate(|old(trace)|) || reliable
      ensures schemes == if ok then old(schemes)[g := defaults(g)] else old(schemes)
    {
      ok := fate(|trace|) || reliable;
      ReplaySnoc(defaults, initial, initialActive, trace, Restore(g, ok));
      trace := trace + [Restore(g, ok)];
      if ok { schemes := schemes[g := defaults(g)]; }
    }

    method PowerWriteACValueIndex(g: Guid, setting: (Guid, Guid), value: int) returns (ok: bool)
      requires Valid() && g in schemes
      modifies this`schemes, this`trace
      ensures Valid() && trace == old(trace) + [WriteAC(g, setting, value, ok)]
      ensures ok <==> fate(|old(trace)|) || reliable
      ensures schemes == if ok then old(schemes)[g := old(schemes)[g].(ac := old(schemes)[g].ac[setting := value])]
                               else old(schemes)
    {
      ok := fate(|trace|) || reliable;
      ReplaySnoc(defaults, initial, initialActive, trace, WriteAC(g, setting, value, ok));
      trace := trace + [WriteAC(g, setting, value, ok)];
      if ok { schemes := schemes[g := schemes[g].(ac := schemes[g].ac[setting := value])]; }
    }

    method PowerWriteDCValueIndex(g: Guid, setting: (Guid, Guid), value: int) returns (ok: bool)
      requires Valid() && g in schemes
      modifies this`schemes, this`trace
      ensures Valid() && trace == old(trace) + [WriteDC(g, setting, value, ok)]
      ensures ok <==> fate(|old(trace)|) || reliable
      ensures schemes == if ok then old(schemes)[g := old(schemes)[g].(dc := old(schemes)[g].dc[setting := value])]
                               else old(schemes)
    {
      ok := fate(|trace|) || reliable;
      ReplaySnoc(defaults, initial, initialActive, trace, WriteDC(g, setting, value, ok));
      trace := trace + [WriteDC(g, setting, value, ok)];
      if ok { schemes := schemes[g := schemes[g].(dc := schemes[g].dc[setting := value])]; }
    }

    method PowerSetActiveScheme(g: Guid) returns (ok: bool)
      requires Valid()
      modifies this`active, this`trace
      ensures Valid() && trace == old(trace) + [Activate(g, ok)]
      ensures ok <==> fate(|old(trace)|) || (reliable && g in schemes)
      ensures active == if ok then g else old(active)
    {
      ok := fate(|trace|) || (reliable && g in schemes);
      ReplaySnoc(defaults, initial, initialActive, trace, Activate(g, ok));
      trace := trace + [Activate(g, ok)];
      if ok { active := g; }
    }

    method PowerDeleteScheme(g: Guid) returns (ok: bool)
      requires Valid()
      modifies this`schemes, this`trace
      ensures Valid() && trace == old(trace) + [Delete(g, ok)]
      ensures ok <==> fate(|old(trace)|) || (reliable && g in old(schemes) && g != active)
      ensures schemes == if ok then old(schemes) - {g} else old(schemes)
    {
      ok := fate(|trace|) || (reliable && g in schemes && g != active);
      ReplaySnoc(defaults, initial, initialActive, trace, Delete(g, ok));
      trace := trace + [Delete(g, ok)];
      if ok { schemes := schemes - {g}; }
    }
  }
}
