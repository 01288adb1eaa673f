/** Reference-counted MSR file descriptors (src/Device/CPU/Utils/MSR/OS/Linux/MSRLinux.cpp). */
module MsrLinux {
  import opened Basics

  datatype MsrFd = MsrFd(fd: int, count: int)

  /** There is always a descriptor not in use. */
  lemma {:induction false} FdBound(used: set<int>) returns (m: nat)
    ensures forall fd :: fd in used ==> fd < m
    decreases |used|
  {
    if used == {} {
      m := 0;
    } else {
      var x := Pick(used);
      m := FdBound(used - {x});
      if m <= x { m := x + 1; }
      forall fd | fd in used ensures fd < m {
        if fd != x { assert fd in used - {x}; }
      }
    }
  }

  /** The kernel's side: which descriptors are open, and how often open and close succeeded. A
      reliable one opens every device file and completes every transfer on an open one. */
  class Kernel {
    var openFds: set<int>
    var opens: nat
    var closes: nat
    /** Closes of descriptors that were not open. */
    var strayCloses: nat
    const reliable: bool

    ghost predicate Valid()
      reads this
    {
      && (forall fd :: fd in openFds ==> fd >= 0)
      && opens == closes + |openFds|
    }

    constructor (reliable: bool)
      ensures Valid() && openFds == {} && opens == closes == strayCloses == 0 && this.reliable == reliable
    {
      openFds, opens, closes, strayCloses, this.reliable := {}, 0, 0, 0, reliable;
    }

    /** A new descriptor, or -1. */
    method Open() returns (fd: int)
      requires Valid()
      modifies this
      ensures Valid() && closes == old(closes) && strayCloses == old(strayCloses)
      ensures fd == -1 || (fd >= 0 && fd !in old(openFds))
      ensures openFds == if fd == -1 then old(openFds) else old(openFds) + {fd}
      ensures opens == if fd == -1 then old(opens) else old(opens) + 1
      ensures reliable ==> fd >= 0
    {
      ghost var m := FdBound(openFds);
      assert m !in openFds;
      fd :| fd >= 0 && fd !in openFds;
      var openOk: bool := *;
      if !openOk && !reliable {
        fd := -1;
      } else {
        openFds, opens := openFds + {fd}, opens + 1;
      }
    }

    method Close(fd: int)
      requires Valid()
      modifies this
      ensures Valid() && opens == old(opens) && openFds == old(openFds) - {fd}
      ensures closes == old(closes) + if fd in old(openFds) then 1 else 0
      ensures strayCloses == old(strayCloses) + if fd in old(openFds) then 0 else 1
    {
      if fd in openFds {
        openFds, closes := openFds - {fd}, closes + 1;
      } else {
        strayCloses := strayCloses + 1;
      }
    }
  }

  predicate Owns(fdMap: map<int, MsrFd>, cpu: int, fd: int) {
    cpu in fdMap && fdMap[cpu].count > 0 && fdMap[cpu].fd == fd
  }

  /** A slot has a descriptor exactly while its count is positive, no two slots share one, and the
      open descriptors are exactly the owned ones. */
  ghost predicate Consistent(fdMap: map<int, MsrFd>, openFds: set<int>) {
    && (forall c :: c in fdMap ==> fdMap[c].count >= 0 && (fdMap[c].fd >= 0 <==> fdMap[c].count > 0))
    && (forall c, fd :: Owns(fdMap, c, fd) ==> fd in openFds)
    && (forall c, d, fd :: Owns(fdMap, c, fd) && Owns(fdMap, d, fd) ==> c == d)
    && (forall fd :: fd in openFds ==> exists c :: Owns(fdMap, c, fd))
  }

  /** Replacing a slot without changing what it owns. */
  lemma SameOwner(m: map<int, MsrFd>, openFds: set<int>, cpu: int, slot: MsrFd)
    requires Consistent(m, openFds) && slot.count >= 0 && (slot.fd >= 0 <==> slot.count > 0)
    requires slot.count > 0 <==> cpu in m && m[cpu].count > 0
    requires slot.count > 0 ==> slot.fd == m[cpu].fd
    ensures Consistent(m[cpu := slot], openFds)
  {
    var n := m[cpu := slot];
    assert forall c, fd :: Owns(n, c, fd) <==> Owns(m, c, fd);
  }

  /** A slot that owned nothing takes a new descriptor. */
  lemma NewOwner(m: map<int, MsrFd>, openFds: set<int>, cpu: int, slot: MsrFd)
    requires Consistent(m, openFds) && slot.count > 0 && slot.fd >= 0 && slot.fd !in openFds
    requires cpu in m && m[cpu].count == 0
    ensures Consistent(m[cpu := slot], openFds + {slot.fd})
  {
    var n := m[cpu := slot];
    assert forall c, fd :: Owns(n, c, fd) <==> Owns(m, c, fd) || (c == cpu && fd == slot.fd);
    forall fd | fd in openFds + {slot.fd} ensures exists c :: Owns(n, c, fd) {
      if fd == slot.fd {
        assert Owns(n, cpu, fd);
      } else {
        var c :| Owns(m, c, fd);
        assert Owns(n, c, fd);
      }
    }
  }

  /** A slot gives its descriptor up, or is removed. */
  lemma NoOwner(m: map<int, MsrFd>, openFds: set<int>, cpu: int, n: map<int, MsrFd>)
    requires Consistent(m, openFds) && cpu in m && m[cpu].count > 0
    requires n == m[cpu := MsrFd(-1, 0)] || n == m - {cpu}
    ensures Consistent(n, openFds - {m[cpu].fd})
  {
    assert Owns(m, cpu, m[cpu].fd);
    assert forall c, fd :: Owns(n, c, fd) <==> Owns(m, c, fd) && c != cpu;
    forall fd | fd in openFds - {m[cpu].fd} ensures exists c :: Owns(n, c, fd) {
      var c :| Owns(m, c, fd);
      assert Owns(n, c, fd);
    }
  }

  function Held(fdMap: map<int, MsrFd>): set<int> {
    set c | c in fdMap && fdMap[c].count > 0
  }

  /** As many descriptors are open as there are slots with a positive count. */
  lemma {:induction false} HeldCount(fdMap: map<int, MsrFd>, openFds: set<int>)
    requires Consistent(fdMap, openFds)
    ensures |Held(fdMap)| == |openFds|
    decreases |openFds|
  {
    if openFds != {} {
      var fd := Pick(openFds);
      var c :| Owns(fdMap, c, fd);
      NoOwner(fdMap, openFds, c, fdMap - {c});
      assert Held(fdMap - {c}) == Held(fdMap) - {c};
      HeldCount(fdMap - {c}, openFds - {fd});
    } else {
      assert forall c :: c in Held(fdMap) ==> Owns(fdMap, c, fdMap[c].fd);
      assert Held(fdMap) == {};
    }
  }

  /** How often a cpu is held open. */
  function CountOf(fdMap: map<int, MsrFd>, cpu: int): int {
    if cpu in fdMap then fdMap[cpu].count else 0
  }

  // ---------- one step on the table ----------

  const CLOSED := MsrFd(-1, 0)

  /** `closeFd` reads the slot with `operator[]`, so an unknown cpu gets a zero-initialised slot. */
  function CloseStep(fdMap: map<int, MsrFd>, cpu: int): map<int, MsrFd> {
    var m := if cpu in fdMap then fdMap else fdMap[cpu := MsrFd(0, 0)];
    if m[cpu].count == 0 then m
    else if m[cpu].count > 1 then m[cpu := MsrFd(m[cpu].fd, m[cpu].count - 1)]
    else m[cpu := CLOSED]
  }

  /** The kernel descriptor that such a close closes, if any. */
  function ClosedBy(fdMap: map<int, MsrFd>, cpu: int): Option<int> {
    if CountOf(fdMap, cpu) == 1 then Some(fdMap[cpu].fd) else None
  }

  /** Whether `openFd` has to ask the kernel. */
  predicate AsksKernel(fdMap: map<int, MsrFd>, cpu: int) {
    cpu !in fdMap || fdMap[cpu].fd < 0
  }

  /** `openFd` with the module loaded, when the kernel would answer `fd`. */
  function OpenStep(fdMap: map<int, MsrFd>, cpu: int, fd: int): map<int, MsrFd> {
    var slot := if cpu in fdMap then fdMap[cpu] else CLOSED;
    if slot.fd >= 0 then fdMap[cpu := MsrFd(slot.fd, slot.count + 1)]
    else fdMap[cpu := MsrFd(fd, if fd >= 0 then slot.count + 1 else slot.count)]
  }

  /** The slot table stays consistent with the kernel under close exactly when the cpu is known;
      an unknown one leaves a slot that claims descriptor 0 without having opened it. */
  lemma CloseConsistentIffKnown(fdMap: map<int, MsrFd>, openFds: set<int>, cpu: int)
    requires Consistent(fdMap, openFds)
    ensures Consistent(CloseStep(fdMap, cpu),
                       if CountOf(fdMap, cpu) == 1 then openFds - {fdMap[cpu].fd} else openFds)
            <==> cpu in fdMap
  {
    var m := CloseStep(fdMap, cpu);
    if cpu !in fdMap {
      assert m[cpu] == MsrFd(0, 0);
    } else if fdMap[cpu].count == 1 {
      NoOwner(fdMap, openFds, cpu, m);
    } else if fdMap[cpu].count > 1 {
      SameOwner(fdMap, openFds, cpu, m[cpu]);
    }
  }

  /** What such a slot leads to: the next open of that cpu succeeds without the kernel, whatever it
      would have answered, and the close after it closes descriptor 0, also when another cpu's slot
      still relies on that descriptor. */
  lemma UnknownCloseThenOpen(fdMap: map<int, MsrFd>, cpu: int, fd: int)
    requires cpu !in fdMap
    ensures !AsksKernel(CloseStep(fdMap, cpu), cpu)
    ensures var after := OpenStep(CloseStep(fdMap, cpu), cpu, fd);
      && after == fdMap[cpu := MsrFd(0, 1)]
      && ClosedBy(after, cpu) == Some(0)
      && forall d :: Owns(fdMap, d, 0) ==> Owns(CloseStep(after, cpu), d, 0)
  {
    var after := OpenStep(CloseStep(fdMap, cpu), cpu, fd);
    assert after == fdMap[cpu := MsrFd(0, 1)];
  }

  /** Success of an open: the slot was open already, or the kernel gave a descriptor. */
  predicate Opens(fdMap: map<int, MsrFd>, cpu: int, fd: int) {
    !AsksKernel(fdMap, cpu) || fd >= 0
  }

  /** The open descriptors after the kernel's answer. */
  function GivenBy(fdMap: map<int, MsrFd>, openFds: set<int>, cpu: int, fd: int): set<int> {
    if AsksKernel(fdMap, cpu) && fd >= 0 then openFds + {fd} else openFds
  }

  /** A slot added closed makes no difference to the open that follows. */
  lemma SlotAdded(fdMap: map<int, MsrFd>, openFds: set<int>, cpu: int, fd: int)
    ensures var m := if cpu in fdMap then fdMap else fdMap[cpu := CLOSED];
      && OpenStep(m, cpu, fd) == OpenStep(fdMap, cpu, fd)
      && (Opens(m, cpu, fd) <==> Opens(fdMap, cpu, fd)) && (AsksKernel(m, cpu) <==> AsksKernel(fdMap, cpu))
      && GivenBy(m, openFds, cpu, fd) == GivenBy(fdMap, openFds, cpu, fd)
    ensures !Opens(fdMap, cpu, fd) ==> GivenBy(fdMap, openFds, cpu, fd) == openFds
    ensures !AsksKernel(fdMap, cpu) ==> Opens(fdMap, cpu, fd)
    ensures OpenStep(fdMap, cpu, fd).Keys == fdMap.Keys + {cpu}
  {
    if cpu !in fdMap {
      assert OpenStep(fdMap[cpu := CLOSED], cpu, fd) == OpenStep(fdMap, cpu, fd);
    }
  }

  /** In an agreeing table the kernel is asked exactly for a cpu not held. */
  lemma AskedIfNotHeld(fdMap: map<int, MsrFd>, openFds: set<int>, held: multiset<int>, cpu: int)
    requires Consistent(fdMap, openFds) && CountsMatch(fdMap, held)
    ensures AsksKernel(fdMap, cpu) <==> cpu !in held
  {
    HeldIsCount(fdMap, held, cpu);
  }

  /** The counts are the holds, and only slots with a descriptor are counted. */
  ghost predicate CountsMatch(fdMap: map<int, MsrFd>, held: multiset<int>) {
    && (forall c :: c in fdMap ==> fdMap[c].count >= 0 && (fdMap[c].count > 0 ==> fdMap[c].fd >= 0))
    && (forall c :: held[c] == CountOf(fdMap, c))
  }

  lemma OpenCounts(fdMap: map<int, MsrFd>, held: multiset<int>, cpu: int, fd: int)
    requires CountsMatch(fdMap, held)
    ensures CountsMatch(OpenStep(fdMap, cpu, fd), if Opens(fdMap, cpu, fd) then held + multiset{cpu} else held)
    ensures cpu in held ==> !AsksKernel(fdMap, cpu)
  {
  }

  lemma CloseCounts(fdMap: map<int, MsrFd>, held: multiset<int>, cpu: int)
    requires CountsMatch(fdMap, held)
    ensures CountsMatch(CloseStep(fdMap, cpu), held - multiset{cpu})
    ensures held[cpu] == CountOf(fdMap, cpu)
  {
  }

  /** An open keeps agreement with the kernel if a descriptor it is given is a new one. */
  lemma OpenConsistent(fdMap: map<int, MsrFd>, openFds: set<int>, cpu: int, fd: int)
    requires Consistent(fdMap, openFds)
    requires AsksKernel(fdMap, cpu) ==> fd == -1 || (fd >= 0 && fd !in openFds)
    ensures Consistent(OpenStep(fdMap, cpu, fd), GivenBy(fdMap, openFds, cpu, fd))
  {
    var slot := if cpu in fdMap then fdMap[cpu] else CLOSED;
    if slot.fd < 0 && fd >= 0 {
      SameOwner(fdMap, openFds, cpu, slot);
      NewOwner(fdMap[cpu := slot], openFds, cpu, MsrFd(fd, slot.count + 1));
      assert fdMap[cpu := slot][cpu := MsrFd(fd, slot.count + 1)] == OpenStep(fdMap, cpu, fd);
    } else {
      SameOwner(fdMap, openFds, cpu, OpenStep(fdMap, cpu, fd)[cpu]);
    }
  }

  lemma HeldIsCount(fdMap: map<int, MsrFd>, held: multiset<int>, cpu: int)
    requires CountsMatch(fdMap, held)
    ensures cpu in held <==> CountOf(fdMap, cpu) > 0
    ensures CountOf(fdMap, cpu) >= 0
  {
  }

  lemma SlotsAfterClose(fdMap: map<int, MsrFd>, cpu: int)
    ensures CloseStep(fdMap, cpu).Keys == fdMap.Keys + {cpu}
    ensures ClosedBy(fdMap, cpu) == if CountOf(fdMap, cpu) == 1 then Some(fdMap[cpu].fd) else None
  {
  }

  lemma OwnerIsOpen(fdMap: map<int, MsrFd>, openFds: set<int>, cpu: int)
    requires Consistent(fdMap, openFds)
    ensures ClosedBy(fdMap, cpu).Some? ==> ClosedBy(fdMap, cpu).value in openFds
  {
    if CountOf(fdMap, cpu) == 1 { assert Owns(fdMap, cpu, fdMap[cpu].fd); }
  }

  // ---------- the device ----------

  /** What a user of the device asked for, and what came of it. */
  datatype Call = Opened(cpu: int, ok: bool) | Accessed(cpu: int, write: bool, ok: bool) | Closed(cpu: int)

  class MSRLinux {
    const kernel: Kernel
    var fdMap: map<int, MsrFd>
    var moduleLoaded: bool
    /** Each cpu as often as it is held open. */
    ghost var held: multiset<int>
    /** Every call, in order. */
    ghost var calls: seq<Call>

    /** True in every state, also after a stray close. */
    ghost predicate Counted()
      reads this`fdMap, this`held, kernel
    {
      kernel.Valid() && CountsMatch(fdMap, held)
    }

    /** The table agrees with the kernel as well. */
    ghost predicate Valid()
      reads this`fdMap, this`held, kernel
    {
      Counted() && Consistent(fdMap, kernel.openFds)
    }

    constructor (kernel: Kernel)
      requires kernel.Valid() && kernel.openFds == {}
      ensures Valid() && this.kernel == kernel && held == multiset{} && fdMap == map[]
      ensures calls == []
    {
      this.kernel, fdMap, moduleLoaded, held, calls := kernel, map[], false, multiset{}, [];
    }

    method AddSlotForCPU(cpu: int)
      modifies this`fdMap
      ensures fdMap == if cpu in old(fdMap) then old(fdMap) else old(fdMap)[cpu := CLOSED]
    {
      if cpu in fdMap { return; }
      fdMap := fdMap[cpu := CLOSED];
    }

    method LoadMsrModule() returns (ok: bool)
      modifies this`moduleLoaded
      ensures ok == moduleLoaded && (old(moduleLoaded) ==> ok)
    {
      if !moduleLoaded { moduleLoaded := *; }
      ok := moduleLoaded;
    }

    /** The part of `openFd` after the slot is there: count up, or ask the kernel for the device file. */
    method TakeDescriptor(cpu: int) returns (ok: bool, ghost answer: int)
      requires kernel.Valid() && cpu in fdMap
      modifies this`fdMap, kernel
      ensures kernel.Valid() && fdMap == OpenStep(old(fdMap), cpu, answer) && ok == Opens(old(fdMap), cpu, answer)
      ensures AsksKernel(old(fdMap), cpu) ==> answer == -1 || (answer >= 0 && answer !in old(kernel.openFds))
      ensures AsksKernel(old(fdMap), cpu) && kernel.reliable ==> ok
      ensures kernel.openFds == GivenBy(old(fdMap), old(kernel.openFds), cpu, answer)
      ensures kernel.closes == old(kernel.closes) && kernel.strayCloses == old(kernel.strayCloses)
      ensures kernel.opens == old(kernel.opens) + if ok && AsksKernel(old(fdMap), cpu) then 1 else 0
    {
      hide Kernel.Valid;
      var msr := fdMap[cpu];
      answer := -1;
      if msr.fd >= 0 {
        fdMap := fdMap[cpu := msr.(count := msr.count + 1)];
        return true, answer;
      }
      var fd := kernel.Open();
      answer := fd;
      ok := fd >= 0;
      fdMap := fdMap[cpu := MsrFd(fd, if ok then msr.count + 1 else msr.count)];
    }

    /** Success holds the cpu once more, failure leaves every hold as it was, and with the module loaded
        both follow OpenStep for the kernel's answer. In an agreeing table the kernel is asked exactly
        for a cpu not held. */
    method OpenFd(cpu: int) returns (ok: bool, ghost answer: int)
      requires Counted()
      modifies this, kernel
      ensures Counted() && (old(Valid()) ==> Valid()) && calls == old(calls) + [Opened(cpu, ok)]
      ensures held == if ok then old(held) + multiset{cpu} else old(held)
      ensures fdMap == if moduleLoaded then OpenStep(old(fdMap), cpu, answer) else old(fdMap)
      ensures ok <==> moduleLoaded && Opens(old(fdMap), cpu, answer)
      ensures old(moduleLoaded) ==> moduleLoaded
      ensures old(moduleLoaded) && (kernel.reliable || cpu in old(held)) ==> ok
      ensures ok ==> kernel.openFds == GivenBy(old(fdMap), old(kernel.openFds), cpu, answer)
      ensures !ok ==> kernel.openFds == old(kernel.openFds)
      ensures kernel.closes == old(kernel.closes) && kernel.strayCloses == old(kernel.strayCloses)
      ensures kernel.opens == old(kernel.opens) + if ok && AsksKernel(old(fdMap), cpu) then 1 else 0
      ensures old(Valid()) ==> (AsksKernel(old(fdMap), cpu) <==> cpu !in old(held))
    {
      hide OpenStep, Opens, AsksKernel, Consistent, CountsMatch, GivenBy, Kernel.Valid;
      ghost var valid, openFds, before := Consistent(fdMap, kernel.openFds), kernel.openFds, fdMap;
      OpenCounts(before, held, cpu, -1);
      if valid { AskedIfNotHeld(before, openFds, held, cpu); }
      ok := LoadMsrModule();
      if !ok {
        calls := calls + [Opened(cpu, false)];
        return ok, -1;
      }
      AddSlotForCPU(cpu);
      ok, answer := TakeDescriptor(cpu);
      SlotAdded(before, openFds, cpu, answer);
      OpenCounts(before, held, cpu, answer);
      if valid { OpenConsistent(before, openFds, cpu, answer); }
      if ok { held := held + multiset{cpu}; }
      calls := calls + [Opened(cpu, ok)];
    }

    /** Closing follows CloseStep for every cpu: it releases one hold, if there is one, and closes the
        slot's descriptor with the last hold only. The table stays in agreement with the kernel exactly
        when the cpu is known, and then no descriptor is closed that is not open. */
    method CloseFd(cpu: int)
      requires Counted()
      modifies this`fdMap, this`held, this`calls, kernel
      ensures calls == old(calls) + [Closed(cpu)]
      ensures Counted() && fdMap == CloseStep(old(fdMap), cpu) && held == old(held) - multiset{cpu}
      ensures fdMap.Keys == old(fdMap).Keys + {cpu}
      ensures old(Valid()) ==> (Valid() <==> cpu in old(fdMap))
      ensures kernel.opens == old(kernel.opens)
      ensures ClosedBy(old(fdMap), cpu).Some? ==>
        kernel.openFds == old(kernel.openFds) - {ClosedBy(old(fdMap), cpu).value}
      ensures ClosedBy(old(fdMap), cpu).None? ==> kernel.openFds == old(kernel.openFds)
      ensures old(Valid()) ==> kernel.strayCloses == old(kernel.strayCloses)
      ensures old(Valid()) ==> kernel.closes == old(kernel.closes) + if old(held)[cpu] == 1 then 1 else 0
    {
      hide Consistent, CountsMatch, Kernel.Valid, CloseStep, ClosedBy;
      CloseCounts(fdMap, held, cpu);
      HeldIsCount(fdMap, held, cpu);
      SlotsAfterClose(fdMap, cpu);
      ghost var valid, before, openFds := Valid(), fdMap, kernel.openFds;
      if valid {
        CloseConsistentIffKnown(before, openFds, cpu);
        OwnerIsOpen(before, openFds, cpu);
      }
      held, calls := held - multiset{cpu}, calls + [Closed(cpu)];
      ReleaseSlot(cpu);
    }

    /** The table's part of `closeFd`. */
    method ReleaseSlot(cpu: int)
      requires kernel.Valid() && CountOf(fdMap, cpu) >= 0
      modifies this`fdMap, kernel
      ensures kernel.Valid() && fdMap == CloseStep(old(fdMap), cpu) && kernel.opens == old(kernel.opens)
      ensures match ClosedBy(old(fdMap), cpu)
        case None => kernel.openFds == old(kernel.openFds) && kernel.closes == old(kernel.closes)
                     && kernel.strayCloses == old(kernel.strayCloses)
        case Some(fd) =>
          && kernel.openFds == old(kernel.openFds) - {fd}
          && kernel.closes == old(kernel.closes) + (if fd in old(kernel.openFds) then 1 else 0)
          && kernel.strayCloses == old(kernel.strayCloses) + (if fd in old(kernel.openFds) then 0 else 1)
    {
      hide Kernel.Valid;
      if cpu !in fdMap { fdMap := fdMap[cpu := MsrFd(0, 0)]; }
      var msr := fdMap[cpu];
      if msr.count == 0 { return; }
      if msr.count - 1 > 0 {
        fdMap := fdMap[cpu := msr.(count := msr.count - 1)];
        return;
      }
      kernel.Close(msr.fd);
      fdMap := fdMap[cpu := CLOSED];
    }

    /** Reads and writes of a known slot are refused while it is not held, and in an agreeing table
        only reach an open descriptor; otherwise the device decides. */
    method Access(cpu: int, write: bool) returns (ok: bool, ghost used: int)
      requires Counted() && cpu in fdMap
      modifies this`calls
      ensures calls == old(calls) + [Accessed(cpu, write, ok)]
      ensures ok ==> cpu in held && used == fdMap[cpu].fd
      ensures ok && Valid() ==> used in kernel.openFds
      ensures kernel.reliable && Valid() && cpu in held ==> ok
    {
      var msr := fdMap[cpu];
      used := msr.fd;
      assert msr.count > 0 ==> Owns(fdMap, cpu, msr.fd);
      ok := *;
      ok := msr.count != 0 && (ok || kernel.reliable);
      calls := calls + [Accessed(cpu, write, ok)];
    }

    /** Kernel opens minus closes is the number of slots held. */
    lemma Conservation()
      requires Valid()
      ensures kernel.opens - kernel.closes == |Held(fdMap)|
      ensures forall c :: c in Held(fdMap) <==> c in held
    {
      HeldCount(fdMap, kernel.openFds);
    }
  }

  datatype Event = Open(cpu: int) | Close(cpu: int)

  /** The holds after a run, given which opens succeeded. */
  function HoldsAfter(held: multiset<int>, events: seq<Event>, results: seq<bool>): multiset<int>
    requires |events| == |results|
  {
    if events == [] then held
    else
      var n := |events| - 1;
      HoldStep(HoldsAfter(held, events[..n], results[..n]), events[n], results[n])
  }

  function HoldStep(held: multiset<int>, e: Event, ok: bool): multiset<int> {
    match e
    case Open(cpu) => if ok then held + multiset{cpu} else held
    case Close(cpu) => held - multiset{cpu}
  }

  lemma HoldsSnoc(held: multiset<int>, events: seq<Event>, results: seq<bool>, n: nat, ok: bool)
    requires n == |results| < |events|
    ensures HoldsAfter(held, events[..n + 1], results + [ok]) ==
            HoldStep(HoldsAfter(held, events[..n], results), events[n], ok)
  {
    assert events[..n + 1][..n] == events[..n] && (results + [ok])[..n] == results;
  }

  /** The cpu has a slot before event n: from the start, or from an earlier open of the run, which adds
      one when it succeeds and, with the module loaded, in any case. */
  ghost predicate KnownAt(slots: set<int>, loaded: bool, events: seq<Event>, results: seq<bool>, n: nat, cpu: int)
    requires n <= |results| <= |events|
  {
    cpu in slots || exists j :: 0 <= j < n && events[j] == Open(cpu) && (loaded || results[j])
  }

  /** The first n events close only slots known by then. */
  ghost predicate ClosesKnown(slots: set<int>, loaded: bool, events: seq<Event>, results: seq<bool>, n: nat)
    requires n <= |results| <= |events|
  {
    forall i :: 0 <= i < n && events[i].Close? ==> KnownAt(slots, loaded, events, results, i, events[i].cpu)
  }

  /** The run's slots: everything known has one. */
  ghost predicate SlotsKnown(slots: set<int>, loaded: bool, events: seq<Event>, results: seq<bool>, keys: set<int>)
    requires |results| <= |events|
  {
    forall cpu :: KnownAt(slots, loaded, events, results, |results|, cpu) ==> cpu in keys
  }

  lemma ClosesKnownStep(slots: set<int>, loaded: bool, events: seq<Event>, results: seq<bool>, ok: bool, keys: set<int>,
                        after: set<int>)
    requires |results| < |events| && SlotsKnown(slots, loaded, events, results, keys) && keys <= after
    requires var e := events[|results|]; (e.Open? && (loaded || ok)) || e.Close? ==> e.cpu in after
    ensures SlotsKnown(slots, loaded, events, results + [ok], after)
    ensures ClosesKnown(slots, loaded, events, results + [ok], |results| + 1) ==>
      (ClosesKnown(slots, loaded, events, results, |results|)
       && (events[|results|].Close? ==> events[|results|].cpu in keys))
  {
    var n, more := |results|, results + [ok];
    forall cpu | KnownAt(slots, loaded, events, more, n + 1, cpu) ensures cpu in after {
      if cpu !in slots {
        var j :| 0 <= j < n + 1 && events[j] == Open(cpu) && (loaded || more[j]);
        if j < n {
          assert results[j] == more[j];
          assert KnownAt(slots, loaded, events, results, n, cpu);
        }
      } else {
        assert KnownAt(slots, loaded, events, results, n, cpu);
      }
    }
    if ClosesKnown(slots, loaded, events, more, n + 1) {
      forall i | 0 <= i < n + 1 && events[i].Close? ensures KnownAt(slots, loaded, events, results, i, events[i].cpu) {
        assert KnownAt(slots, loaded, events, more, i, events[i].cpu);
        if events[i].cpu !in slots {
          var j :| 0 <= j < i && events[j] == Open(events[i].cpu) && (loaded || more[j]);
          assert results[j] == more[j];
        }
      }
    }
  }

  method Perform(msr: MSRLinux, e: Event) returns (ok: bool)
    requires msr.Counted()
    modifies msr, msr.kernel
    ensures msr.Counted() && msr.held == HoldStep(old(msr.held), e, ok)
    ensures old(msr.moduleLoaded) ==> msr.moduleLoaded
    ensures old(msr.fdMap).Keys <= msr.fdMap.Keys
    ensures e.Close? || msr.moduleLoaded ==> e.cpu in msr.fdMap.Keys
    ensures e.Open? && ok ==> msr.moduleLoaded
    ensures old(msr.Valid()) && (e.Close? ==> e.cpu in old(msr.fdMap).Keys) ==>
      (msr.Valid() && msr.kernel.strayCloses == old(msr.kernel.strayCloses))
  {
    hide MSRLinux.Counted, MSRLinux.Valid, OpenStep, CloseStep, ClosedBy, GivenBy, Opens, AsksKernel;
    ok := true;
    match e {
      case Open(cpu) =>
        ghost var before, answer := msr.fdMap, 0;
        ok, answer := msr.OpenFd(cpu);
        KeysAfterOpen(before, cpu, answer);
      case Close(cpu) => msr.CloseFd(cpu);
    }
  }

  lemma KeysAfterOpen(fdMap: map<int, MsrFd>, cpu: int, fd: int)
    ensures OpenStep(fdMap, cpu, fd).Keys == fdMap.Keys + {cpu}
  {
  }

  lemma RunStart(held: multiset<int>, slots: set<int>, loaded: bool, events: seq<Event>)
    ensures HoldsAfter(held, events[..0], []) == held
    ensures SlotsKnown(slots, loaded, events, [], slots) && ClosesKnown(slots, loaded, events, [], 0)
  {
  }

  /** Any run of opens, which may fail, and closes, from any agreeing state and so from a fresh one: the
      final holds are those of the successful opens less the closes; and if every close is of a slot
      known at that point, the table still agrees with the kernel, whose opens less closes are the
      slots held, and nothing was closed that was not open. */
  method Run(msr: MSRLinux, events: seq<Event>) returns (results: seq<bool>)
    requires msr.Counted() && msr.Valid()
    modifies msr, msr.kernel
    ensures msr.Counted() && |results| == |events|
    ensures msr.held == HoldsAfter(old(msr.held), events, results)
    ensures ClosesKnown(old(msr.fdMap).Keys, old(msr.moduleLoaded), events, results, |events|) ==>
      (msr.Valid() && msr.kernel.opens - msr.kernel.closes == |Held(msr.fdMap)|
       && msr.kernel.strayCloses == old(msr.kernel.strayCloses))
  {
    hide *;
    results := [];
    ghost var slots, loaded := msr.fdMap.Keys, msr.moduleLoaded;
    RunStart(msr.held, slots, loaded, events);
    for i := 0 to |events|
      invariant msr.Counted() && |results| == i && (loaded ==> msr.moduleLoaded)
      invariant msr.held == HoldsAfter(old(msr.held), events[..i], results)
      invariant SlotsKnown(slots, loaded, events, results, msr.fdMap.Keys)
      invariant ClosesKnown(slots, loaded, events, results, i) ==>
        (msr.Valid() && msr.kernel.strayCloses == old(msr.kernel.strayCloses))
    {
      ghost var keys := msr.fdMap.Keys;
      var ok := Perform(msr, events[i]);
      HoldsSnoc(old(msr.held), events, results, i, ok);
      ClosesKnownStep(slots, loaded, events, results, ok, keys, msr.fdMap.Keys);
      results := results + [ok];
    }
    assert events[..|events|] == events;
    if msr.Valid() { msr.Conservation(); }
  }
}
