/** The passes of IntelCPU and AMDCPU over package, cores and threads, as users of the
    reference-counted descriptors (src/Device/CPU/Intel/IntelCPU.cpp,
    src/Device/CPU/AMD/AMDCPU.cpp). Register reads and writes are outcomes only. */
module CpuPasses {
  import opened Basics
  import opened MsrLinux

  datatype DError =
    | NO_MSR_FD
    | CORE_IDX_MISMATCH
    | CORE_DATA_MISMATCH
    | THREAD_DATA_MISMATCH
    | W_REGISTER

  /** Package, per-core or per-thread data of a packet: left default, or filled from registers that
      could be read or not. */
  datatype Entry = Default | Filled(read: bool)

  /** How many entries a client packet carries for this vendor, if it carries any. */
  datatype ClientData = NoData | Data(coreCount: nat, threadCount: nat)

  /** Holds after the Intel core loop, which opens `coreIdxList[i]` but closes i. */
  function CorePass(held: multiset<int>, coreIdxList: seq<int>, openOk: seq<bool>): multiset<int>
    requires |coreIdxList| == |openOk|
  {
    if openOk == [] then held
    else
      var n := |openOk| - 1;
      var before := CorePass(held, coreIdxList[..n], openOk[..n]);
      if openOk[n] then before + multiset{coreIdxList[n]} - multiset{n} else before
  }

  lemma CorePassSnoc(held: multiset<int>, coreIdxList: seq<int>, openOk: seq<bool>, n: nat, ok: bool)
    requires n == |openOk| < |coreIdxList|
    ensures CorePass(held, coreIdxList[..n + 1], openOk + [ok]) ==
            var before := CorePass(held, coreIdxList[..n], openOk);
            if ok then before + multiset{coreIdxList[n]} - multiset{n} else before
  {
    assert coreIdxList[..n + 1][..n] == coreIdxList[..n] && (openOk + [ok])[..n] == openOk;
  }

  lemma {:induction false} CorePassNeverShrinks(held: multiset<int>, coreIdxList: seq<int>, openOk: seq<bool>)
    requires |coreIdxList| == |openOk|
    ensures |CorePass(held, coreIdxList, openOk)| >= |held|
  {
    if openOk != [] {
      CorePassNeverShrinks(held, coreIdxList[..|openOk| - 1], openOk[..|openOk| - 1]);
    }
  }

  predicate IndexedByPosition(coreIdxList: seq<int>) {
    forall i :: 0 <= i < |coreIdxList| ==> coreIdxList[i] == i
  }

  /** Whatever was held and whichever opens fail, a list that maps every core to its own number
      leaves all counts as found. */
  lemma {:induction false} CorePassBalanced(held: multiset<int>, coreIdxList: seq<int>, openOk: seq<bool>)
    requires |coreIdxList| == |openOk|
    requires forall i :: 0 <= i < |openOk| && openOk[i] ==> coreIdxList[i] == i
    ensures CorePass(held, coreIdxList, openOk) == held
  {
    if openOk != [] {
      CorePassBalanced(held, coreIdxList[..|openOk| - 1], openOk[..|openOk| - 1]);
    }
  }

  lemma BalancedList(held: multiset<int>, coreIdxList: seq<int>, openOk: seq<bool>)
    requires |coreIdxList| == |openOk|
    ensures IndexedByPosition(coreIdxList) || openOk == [] ==> CorePass(held, coreIdxList, openOk) == held
  {
    if IndexedByPosition(coreIdxList) { CorePassBalanced(held, coreIdxList, openOk); }
  }

  lemma {:induction false} CorePassLeaks(coreIdxList: seq<int>, openOk: seq<bool>, k: nat)
    requires |coreIdxList| == |openOk| && k < |openOk|
    requires openOk[k] && coreIdxList[k] != k
    requires forall i :: 0 <= i < k && openOk[i] ==> coreIdxList[i] == i
    ensures |CorePass(multiset{}, coreIdxList, openOk)| >= 1
  {
    var n := |openOk| - 1;
    if k < n {
      CorePassLeaks(coreIdxList[..n], openOk[..n], k);
    } else {
      CorePassBalanced(multiset{}, coreIdxList[..n], openOk[..n]);
      assert coreIdxList[n] in multiset{coreIdxList[n]} - multiset{n};
    }
  }

  /** From rest, the Intel core loop leaves nothing held exactly when every core whose open
      succeeded sits at its own index. */
  lemma CorePassBalancedIff(coreIdxList: seq<int>, openOk: seq<bool>)
    requires |coreIdxList| == |openOk|
    ensures CorePass(multiset{}, coreIdxList, openOk) == multiset{}
            <==> forall i :: 0 <= i < |openOk| && openOk[i] ==> coreIdxList[i] == i
  {
    if forall i :: 0 <= i < |openOk| && openOk[i] ==> coreIdxList[i] == i {
      CorePassBalanced(multiset{}, coreIdxList, openOk);
    } else {
      var k := FirstMisplaced(coreIdxList, openOk);
      CorePassLeaks(coreIdxList, openOk, k);
    }
  }

  /** What a caller can know beforehand: from rest, the core loop leaves nothing held whichever opens
      succeed exactly when every core sits at its own index. */
  lemma CorePassAlwaysBalancedIff(coreIdxList: seq<int>)
    ensures (forall openOk :: |openOk| == |coreIdxList| ==> CorePass(multiset{}, coreIdxList, openOk) == multiset{})
            <==> IndexedByPosition(coreIdxList)
  {
    var all := seq(|coreIdxList|, i => true);
    CorePassBalancedIff(coreIdxList, all);
    forall openOk | |openOk| == |coreIdxList| && IndexedByPosition(coreIdxList)
      ensures CorePass(multiset{}, coreIdxList, openOk) == multiset{}
    {
      CorePassBalancedIff(coreIdxList, openOk);
    }
  }

  lemma FirstMisplaced(coreIdxList: seq<int>, openOk: seq<bool>) returns (k: nat)
    requires |coreIdxList| == |openOk|
    requires exists i :: 0 <= i < |openOk| && openOk[i] && coreIdxList[i] != i
    ensures k < |openOk| && openOk[k] && coreIdxList[k] != k
    ensures forall i :: 0 <= i < k && openOk[i] ==> coreIdxList[i] == i
  {
    k := 0;
    while !(openOk[k] && coreIdxList[k] != k)
      invariant k < |openOk|
      invariant forall i :: 0 <= i < k && openOk[i] ==> coreIdxList[i] == i
      decreases |openOk| - k
    {
      k := k + 1;
    }
  }

  /** Two cores that are threads 0 and 2: cpu 2 stays open for ever. */
  lemma LeakingWitness()
    ensures CorePass(multiset{}, [0, 2], [true, true]) == multiset{2}
  {
    assert [0, 2][..1] == [0] && [true, true][..1] == [true];
    assert CorePass(multiset{}, [0], [true]) == multiset{} by {
      assert [0][..0] == [] && [true][..0] == [];
    }
  }

  // ---------- one pass after another ----------

  /** The holds after one core loop per element of `passes`, which says which opens succeeded. */
  function AfterPasses(coreIdxList: seq<int>, passes: seq<seq<bool>>): multiset<int>
    requires forall i :: 0 <= i < |passes| ==> |passes[i]| == |coreIdxList|
  {
    if passes == [] then multiset{}
    else CorePass(AfterPasses(coreIdxList, passes[..|passes| - 1]), coreIdxList, passes[|passes| - 1])
  }

  /** k passes with the same outcomes. */
  function Repeat(openOk: seq<bool>, k: nat): (passes: seq<seq<bool>>)
    ensures |passes| == k && forall i :: 0 <= i < k ==> passes[i] == openOk
  {
    seq(k, i => openOk)
  }

  function AllOpen(n: nat): (openOk: seq<bool>)
    ensures |openOk| == n && forall i :: 0 <= i < n ==> openOk[i]
  {
    seq(n, i => true)
  }

  /** One step of the loop, seen from one cpu. */
  lemma CountStep(held: multiset<int>, coreIdxList: seq<int>, openOk: seq<bool>, c: int)
    requires |coreIdxList| == |openOk| > 0
    ensures var n := |openOk| - 1;
      var before := CorePass(held, coreIdxList[..n], openOk[..n])[c];
      var more := before + if coreIdxList[n] == c then 1 else 0;
      CorePass(held, coreIdxList, openOk)[c] ==
        if !openOk[n] then before else if n == c && more > 0 then more - 1 else more
  {
  }

  lemma OccurrenceStep(s: seq<int>, c: int)
    requires s != []
    ensures var n := |s| - 1;
      multiset(s)[c] == multiset(s[..n])[c] + if s[n] == c then 1 else 0
  {
    assert s == s[..|s| - 1] + [s[|s| - 1]];
  }

  lemma RepeatStep(coreIdxList: seq<int>, openOk: seq<bool>, k: nat)
    requires |openOk| == |coreIdxList| && k > 0
    ensures AfterPasses(coreIdxList, Repeat(openOk, k)) ==
            CorePass(AfterPasses(coreIdxList, Repeat(openOk, k - 1)), coreIdxList, openOk)
  {
    hide CorePass;
    assert Repeat(openOk, k)[..k - 1] == Repeat(openOk, k - 1);
  }

  /** A cpu that is no core number is opened and never closed. */
  lemma {:induction false} PassOutside(held: multiset<int>, coreIdxList: seq<int>, openOk: seq<bool>, c: int)
    requires |coreIdxList| == |openOk| && (forall i :: 0 <= i < |openOk| ==> openOk[i])
    requires !(0 <= c < |coreIdxList|)
    ensures CorePass(held, coreIdxList, openOk)[c] == held[c] + multiset(coreIdxList)[c]
  {
    if openOk != [] {
      var n := |openOk| - 1;
      PassOutside(held, coreIdxList[..n], openOk[..n], c);
      CountStep(held, coreIdxList, openOk, c);
      OccurrenceStep(coreIdxList, c);
      hide CorePass;
    }
  }

  lemma {:induction false} DistinctCount(s: seq<int>, c: int)
    requires Distinct(s)
    ensures multiset(s)[c] == if c in s then 1 else 0
  {
    if s != [] {
      var n := |s| - 1;
      DistinctCount(s[..n], c);
      OccurrenceStep(s, c);
      assert s[n] !in s[..n];
      assert c in s <==> c in s[..n] || c == s[n];
    }
  }

  /** If every open succeeds, a core number held at most once is held at most once after a pass over distinct
      cpus; until its own turn comes it may be held once more. */
  lemma {:induction false} PassInside(held: multiset<int>, coreIdxList: seq<int>, openOk: seq<bool>, c: nat)
    requires |coreIdxList| == |openOk| && (forall i :: 0 <= i < |openOk| ==> openOk[i])
    requires Distinct(coreIdxList) && held[c] <= 1
    ensures var r := CorePass(held, coreIdxList, openOk)[c];
      if c >= |coreIdxList| then r <= 1 + multiset(coreIdxList)[c]
      else r <= 1 && (c !in coreIdxList ==> r == 0)
  {
    if openOk != [] {
      var n := |openOk| - 1;
      var rest := coreIdxList[..n];
      PassInside(held, rest, openOk[..n], c);
      CountStep(held, coreIdxList, openOk, c);
      OccurrenceStep(coreIdxList, c);
      DistinctCount(rest, c);
      DistinctCount(coreIdxList, c);
      hide CorePass;
    }
  }

  /** After k passes with every open succeeding, a listed cpu that is no core number is held k times. */
  lemma {:induction false} LeakGrows(coreIdxList: seq<int>, k: nat, c: int)
    requires !(0 <= c < |coreIdxList|)
    ensures AfterPasses(coreIdxList, Repeat(AllOpen(|coreIdxList|), k))[c] == k * multiset(coreIdxList)[c]
  {
    hide CorePass;
    var all, m := AllOpen(|coreIdxList|), multiset(coreIdxList)[c];
    if k != 0 {
      LeakGrows(coreIdxList, k - 1, c);
      RepeatStep(coreIdxList, all, k);
      PassOutside(AfterPasses(coreIdxList, Repeat(all, k - 1)), coreIdxList, all, c);
      hide *;
      OneMore(k, m);
    }
  }

  lemma OneMore(k: nat, m: nat)
    requires k > 0
    ensures (k - 1) * m + m == k * m
  {
  }

  lemma {:induction false} HeldOnce(coreIdxList: seq<int>, k: nat, c: nat)
    requires Distinct(coreIdxList) && c < |coreIdxList|
    ensures AfterPasses(coreIdxList, Repeat(AllOpen(|coreIdxList|), k))[c] <= 1
  {
    if k != 0 {
      var all := AllOpen(|coreIdxList|);
      HeldOnce(coreIdxList, k - 1, c);
      RepeatStep(coreIdxList, all, k);
      PassInside(AfterPasses(coreIdxList, Repeat(all, k - 1)), coreIdxList, all, c);
    }
  }

  /** For distinct cpus and opens that succeed: however many passes there are, none is held more than once
      exactly when all the listed cpus are core numbers; otherwise the holds grow with every pass. */
  lemma BoundedIff(coreIdxList: seq<int>)
    requires Distinct(coreIdxList)
    ensures (forall k: nat, c: int :: AfterPasses(coreIdxList, Repeat(AllOpen(|coreIdxList|), k))[c] <= 1)
            <==> forall i :: 0 <= i < |coreIdxList| ==> 0 <= coreIdxList[i] < |coreIdxList|
  {
    hide AfterPasses, CorePass;
    if i :| 0 <= i < |coreIdxList| && !(0 <= coreIdxList[i] < |coreIdxList|) {
      LeakGrows(coreIdxList, 2, coreIdxList[i]);
      DistinctCount(coreIdxList, coreIdxList[i]);
      assert AfterPasses(coreIdxList, Repeat(AllOpen(|coreIdxList|), 2))[coreIdxList[i]] == 2;
    } else {
      forall k: nat, c: int ensures AfterPasses(coreIdxList, Repeat(AllOpen(|coreIdxList|), k))[c] <= 1 {
        if 0 <= c < |coreIdxList| {
          HeldOnce(coreIdxList, k, c);
        } else {
          LeakGrows(coreIdxList, k, c);
          DistinctCount(coreIdxList, c);
          assert multiset(coreIdxList)[c] == 0;
        }
      }
    }
  }

  function OnlyOpen(n: nat, k: nat): (openOk: seq<bool>)
    ensures |openOk| == n && forall i :: 0 <= i < n ==> (openOk[i] <==> i == k)
  {
    seq(n, i => i == k)
  }

  /** Failing opens make it worse, because nothing is closed after one: any misplaced core is held m times after m
      passes in which only its open succeeds, also in a list of core numbers. */
  lemma {:induction false} MisplacedGrows(coreIdxList: seq<int>, k: nat, m: nat)
    requires k < |coreIdxList| && coreIdxList[k] != k
    ensures AfterPasses(coreIdxList, Repeat(OnlyOpen(|coreIdxList|, k), m))[coreIdxList[k]] == m
  {
    if m != 0 {
      var only := OnlyOpen(|coreIdxList|, k);
      MisplacedGrows(coreIdxList, k, m - 1);
      RepeatStep(coreIdxList, only, m);
      PassOnly(AfterPasses(coreIdxList, Repeat(only, m - 1)), coreIdxList, only, k);
    }
  }

  lemma {:induction false} PassOnly(held: multiset<int>, coreIdxList: seq<int>, openOk: seq<bool>, k: nat)
    requires |coreIdxList| == |openOk| && forall i :: 0 <= i < |openOk| ==> (openOk[i] <==> i == k)
    ensures k >= |openOk| ==> CorePass(held, coreIdxList, openOk) == held
    ensures k < |openOk| && coreIdxList[k] != k ==>
      CorePass(held, coreIdxList, openOk)[coreIdxList[k]] == held[coreIdxList[k]] + 1
  {
    if openOk != [] {
      PassOnly(held, coreIdxList[..|openOk| - 1], openOk[..|openOk| - 1], k);
    }
  }

  // ---------- what the passes ask of the device ----------

  /** One cpu opened, its registers read or written if that succeeded, and then one cpu closed. */
  datatype Visit = Visit(opens: int, closes: int, write: bool, openOk: bool, accessOk: bool)

  function CallsOf(v: Visit): seq<Call> {
    if v.openOk then [Opened(v.opens, true), Accessed(v.opens, v.write, v.accessOk), Closed(v.closes)]
    else [Opened(v.opens, false)]
  }

  function AllCalls(visits: seq<Visit>): seq<Call> {
    if visits == [] then []
    else AllCalls(visits[..|visits| - 1]) + CallsOf(visits[|visits| - 1])
  }

  /** With the cpu group on, these visits and no others; with it off none. */
  ghost predicate Visited(visits: seq<Visit>, cpuGroup: bool, opens: seq<int>, closes: seq<int>, write: bool) {
    if !cpuGroup then visits == []
    else
      && |visits| == |opens| == |closes|
      && forall i :: 0 <= i < |visits| ==>
           visits[i].opens == opens[i] && visits[i].closes == closes[i] && visits[i].write == write
  }

  /** Some open succeeded and the access after it failed. */
  ghost predicate SomeFailed(visits: seq<Visit>) {
    exists v :: v in visits && v.openOk && !v.accessOk
  }

  function UpTo(n: nat): (s: seq<int>)
    ensures |s| == n && forall i :: 0 <= i < n ==> s[i] == i
  {
    seq(n, i => i)
  }

  lemma NoVisits(cpuGroup: bool, write: bool)
    ensures Visited([], cpuGroup, [], [], write) && AllCalls([]) == [] && !SomeFailed([]) && UpTo(0) == []
    ensures Shown([], [])
  {
  }

  /** The visits of a pass, further entries handled. */
  lemma VisitsJoin(a: seq<Visit>, b: seq<Visit>, cpuGroup: bool, opens: seq<int>, closes: seq<int>,
                   moreOpens: seq<int>, moreCloses: seq<int>, write: bool)
    requires Visited(a, cpuGroup, opens, closes, write) && Visited(b, cpuGroup, moreOpens, moreCloses, write)
    ensures Visited(a + b, cpuGroup, opens + moreOpens, closes + moreCloses, write)
    ensures AllCalls(a + b) == AllCalls(a) + AllCalls(b)
    ensures SomeFailed(a + b) <==> SomeFailed(a) || SomeFailed(b)
    ensures a != [] ==> a + b != [] && (a + b)[0] == a[0]
  {
    AllCallsAppend(a, b);
    assert forall v :: v in a + b <==> v in a || v in b;
  }

  lemma {:induction false} AllCallsAppend(a: seq<Visit>, b: seq<Visit>)
    ensures AllCalls(a + b) == AllCalls(a) + AllCalls(b)
  {
    if b == [] {
      assert a + b == a;
    } else {
      assert (a + b)[..|a + b| - 1] == a + b[..|b| - 1];
      AllCallsAppend(a, b[..|b| - 1]);
    }
  }

  lemma VisitedSize(visits: seq<Visit>, cpuGroup: bool, opens: seq<int>, closes: seq<int>, write: bool)
    requires Visited(visits, cpuGroup, opens, closes, write)
    ensures |visits| == if cpuGroup then |opens| else 0
  {
  }

  lemma OneVisit(v: Visit)
    ensures AllCalls([v]) == CallsOf(v) && (SomeFailed([v]) <==> v.openOk && !v.accessOk)
    ensures Visited([v], true, [v.opens], [v.closes], v.write)
  {
    assert [v][..0] == [] && v in [v];
  }

  lemma UpToStep(n: nat)
    ensures UpTo(n + 1) == UpTo(n) + [n]
  {
  }

  /** The bracket that every pass puts around its register accesses: open one cpu, read or write, close
      one, which the Intel core loop chooses differently. After a successful open the table stays in
      agreement with the kernel exactly when the cpu to close has a slot. */
  method Bracket(msr: MSRLinux, opens: int, closes: int, write: bool) returns (openOk: bool, accessed: bool)
    requires msr.Counted()
    modifies msr, msr.kernel
    ensures msr.Counted() && old(msr.fdMap).Keys <= msr.fdMap.Keys
    ensures msr.held == if openOk then old(msr.held) + multiset{opens} - multiset{closes} else old(msr.held)
    ensures old(msr.moduleLoaded) ==> msr.moduleLoaded && opens in msr.fdMap.Keys
    ensures old(msr.Valid()) ==> (msr.Valid() <==> !openOk || closes == opens || closes in old(msr.fdMap).Keys)
    ensures openOk ==> closes in msr.fdMap.Keys
    ensures old(msr.moduleLoaded) && msr.kernel.reliable ==> openOk && (old(msr.Valid()) ==> accessed)
    ensures accessed ==> openOk
    ensures msr.calls == old(msr.calls) + CallsOf(Visit(opens, closes, write, openOk, accessed))
  {
    hide *;
    accessed := false;
    ghost var answer;
    ghost var before, calls := msr.fdMap, msr.calls;
    openOk, answer := msr.OpenFd(opens);
    KeysAfterOpen(before, opens, answer);
    VisitCalls(opens, closes, write, openOk, accessed);
    if !openOk { return; }
    assert opens in msr.held by { assert opens in multiset{opens}; }
    accessed, answer := msr.Access(opens, write);
    VisitCalls(opens, closes, write, openOk, accessed);
    msr.CloseFd(closes);
    assert msr.calls == calls + CallsOf(Visit(opens, closes, write, true, accessed));
  }

  lemma VisitCalls(opens: int, closes: int, write: bool, openOk: bool, accessOk: bool)
    ensures CallsOf(Visit(opens, closes, write, openOk, accessOk)) ==
      if openOk then [Opened(opens, true)] + [Accessed(opens, write, accessOk)] + [Closed(closes)]
      else [Opened(opens, false)]
  {
  }

  /** Each entry is what its visit gave. */
  ghost predicate Shown(entries: seq<Entry>, visits: seq<Visit>) {
    && |entries| == |visits|
    && forall i :: 0 <= i < |visits| ==>
         entries[i] == if visits[i].openOk then Filled(visits[i].accessOk) else Default
  }

  lemma ShownMore(entries: seq<Entry>, visits: seq<Visit>, e: seq<Entry>, v: seq<Visit>)
    requires Shown(entries, visits) && Shown(e, v)
    ensures Shown(entries + e, visits + v)
  {
  }

  /** fillPackageData, fillCoreData and fillThreadData: open a cpu, read its registers, close it. */
  method FillEntry(msr: MSRLinux, cpu: int, cpuGroup: bool)
    returns (entry: Entry, errors: set<DError>, ghost visits: seq<Visit>)
    requires msr.Counted()
    modifies msr, msr.kernel
    ensures msr.Counted() && msr.held == old(msr.held) && old(msr.fdMap).Keys <= msr.fdMap.Keys
    ensures old(msr.Valid()) ==> msr.Valid()
    ensures old(msr.moduleLoaded) ==> msr.moduleLoaded && (cpuGroup ==> cpu in msr.fdMap.Keys)
    ensures errors == if cpuGroup && entry == Default then {NO_MSR_FD} else {}
    ensures !cpuGroup ==> entry == Default
    ensures msr.calls == old(msr.calls) + AllCalls(visits) && Visited(visits, cpuGroup, [cpu], [cpu], false)
    ensures cpuGroup ==> Shown([entry], visits)
    ensures cpuGroup && old(msr.moduleLoaded) && old(msr.Valid()) && msr.kernel.reliable ==> entry == Filled(true)
  {
    hide MSRLinux.Counted, MSRLinux.Valid;
    visits := [];
    if !cpuGroup { return Default, {}, visits; }
    var openOk, read := Bracket(msr, cpu, cpu, false);
    visits := [Visit(cpu, cpu, false, openOk, read)];
    OneVisit(visits[0]);
    if !openOk { return Default, {NO_MSR_FD}, visits; }
    return Filled(read), {}, visits;
  }

  /** applyPackageSettings, where a failed open is an error, and applyThreadSettings, where it is
      only logged. */
  method ApplyEntry(msr: MSRLinux, cpu: int, cpuGroup: bool, reportFailure: bool)
    returns (errors: set<DError>, ghost visits: seq<Visit>)
    requires msr.Counted()
    modifies msr, msr.kernel
    ensures msr.Counted() && msr.held == old(msr.held) && old(msr.fdMap).Keys <= msr.fdMap.Keys
    ensures old(msr.Valid()) ==> msr.Valid()
    ensures msr.calls == old(msr.calls) + AllCalls(visits) && Visited(visits, cpuGroup, [cpu], [cpu], true)
    ensures errors == (if SomeFailed(visits) then {W_REGISTER} else {})
                      + (if reportFailure && cpuGroup && !visits[0].openOk then {NO_MSR_FD} else {})
    ensures !cpuGroup ==> errors == {}
    ensures old(msr.moduleLoaded) ==> msr.moduleLoaded
    ensures old(msr.moduleLoaded) && old(msr.Valid()) && msr.kernel.reliable ==> errors == {}
  {
    hide MSRLinux.Counted, MSRLinux.Valid;
    errors, visits := {}, [];
    if !cpuGroup { return; }
    var openOk, wrote := Bracket(msr, cpu, cpu, true);
    visits := [Visit(cpu, cpu, true, openOk, wrote)];
    OneVisit(visits[0]);
    if !openOk {
      if reportFailure { errors := {NO_MSR_FD}; }
    } else if !wrote {
      errors := {W_REGISTER};
    }
  }

  /** Which opens of these visits succeeded; none with the cpu group off. */
  ghost predicate OpensAre(openOk: seq<bool>, cpuGroup: bool, visits: seq<Visit>) {
    if cpuGroup then |openOk| == |visits| && forall i :: 0 <= i < |visits| ==> openOk[i] == visits[i].openOk
    else AllAre(openOk, false) && visits == []
  }

  lemma NoOpens(cpuGroup: bool)
    ensures OpensAre([], cpuGroup, [])
  {
  }

  lemma OpensMore(openOk: seq<bool>, cpuGroup: bool, visits: seq<Visit>, open: bool, more: seq<Visit>)
    requires OpensAre(openOk, cpuGroup, visits)
    requires if cpuGroup then |more| == 1 && open == more[0].openOk else more == [] && !open
    ensures OpensAre(openOk + [open], cpuGroup, visits + more)
  {
  }

  predicate AllAre(bs: seq<bool>, b: bool) {
    forall i :: 0 <= i < |bs| ==> bs[i] == b
  }

  lemma AllAreSnoc(bs: seq<bool>, b: bool)
    ensures AllAre(bs, b) ==> AllAre(bs + [b], b)
  {
  }

  predicate AllRead(entries: seq<Entry>) {
    forall i :: 0 <= i < |entries| ==> entries[i] == Filled(true)
  }

  /** Every core number below n has a slot. */
  ghost predicate SlotsBelow(slots: set<int>, n: nat) {
    forall i :: 0 <= i < n ==> i in slots
  }

  /** Each close of the core loop finds a slot: the core sits at its own index, or its number is known. */
  ghost predicate CoresClosable(slots: set<int>, coreIdxList: seq<int>, n: nat)
    requires n <= |coreIdxList|
  {
    forall i :: 0 <= i < n ==> coreIdxList[i] == i || i in slots
  }

  lemma CoresClosableStep(slots: set<int>, coreIdxList: seq<int>, n: nat)
    requires n < |coreIdxList|
    ensures CoresClosable(slots, coreIdxList, n + 1) <==>
            CoresClosable(slots, coreIdxList, n) && (coreIdxList[n] == n || n in slots)
  {
  }

  lemma ClosableWhen(slots: set<int>, coreIdxList: seq<int>)
    ensures IndexedByPosition(coreIdxList) || SlotsBelow(slots, |coreIdxList|) ==>
            CoresClosable(slots, coreIdxList, |coreIdxList|)
    ensures CoresClosable(slots, coreIdxList, 0)
  {
  }

  /** The loop over the logical cpus of either vendor's fill pass. */
  method FillThreads(msr: MSRLinux, numLogicalCpus: nat, cpuGroup: bool)
    returns (threadData: seq<Entry>, errors: set<DError>, ghost visits: seq<Visit>)
    requires msr.Counted()
    modifies msr, msr.kernel
    ensures msr.Counted() && msr.held == old(msr.held) && (old(msr.moduleLoaded) ==> msr.moduleLoaded)
    ensures old(msr.Valid()) ==> msr.Valid()
    ensures msr.calls == old(msr.calls) + AllCalls(visits)
    ensures Visited(visits, cpuGroup, UpTo(numLogicalCpus), UpTo(numLogicalCpus), false)
    ensures |threadData| == numLogicalCpus && (cpuGroup ==> Shown(threadData, visits))
    ensures errors == if cpuGroup && Default in threadData then {NO_MSR_FD} else {}
    ensures cpuGroup && old(msr.moduleLoaded) && old(msr.Valid()) && msr.kernel.reliable ==> AllRead(threadData)
    ensures cpuGroup && old(msr.moduleLoaded) ==> SlotsBelow(msr.fdMap.Keys, numLogicalCpus)
  {
    hide MSRLinux.Counted, MSRLinux.Valid, Visited, Shown, AllCalls, UpTo;
    ghost var sure := cpuGroup && msr.moduleLoaded && msr.Valid() && msr.kernel.reliable;
    threadData, errors, visits := [], {}, [];
    NoVisits(cpuGroup, false);
    for i := 0 to numLogicalCpus
      invariant msr.Counted() && msr.held == old(msr.held) && (old(msr.moduleLoaded) ==> msr.moduleLoaded)
      invariant old(msr.Valid()) ==> msr.Valid()
      invariant msr.calls == old(msr.calls) + AllCalls(visits)
      invariant Visited(visits, cpuGroup, UpTo(i), UpTo(i), false)
      invariant |threadData| == i && (cpuGroup ==> Shown(threadData, visits)) && (sure ==> AllRead(threadData))
      invariant errors == if cpuGroup && Default in threadData then {NO_MSR_FD} else {}
      invariant cpuGroup && old(msr.moduleLoaded) ==> SlotsBelow(msr.fdMap.Keys, i)
    {
      ghost var more;
      var entry, errs;
      entry, errs, more := FillEntry(msr, i, cpuGroup);
      VisitsJoin(visits, more, cpuGroup, UpTo(i), UpTo(i), [i], [i], false);
      UpToStep(i);
      if cpuGroup { ShownMore(threadData, visits, [entry], more); }
      threadData, errors, visits := threadData + [entry], errors + errs, visits + more;
    }
  }

  /** The loop over the logical cpus of either vendor's apply pass. */
  method ApplyThreads(msr: MSRLinux, numLogicalCpus: nat, cpuGroup: bool)
    returns (errors: set<DError>, ghost visits: seq<Visit>)
    requires msr.Counted()
    modifies msr, msr.kernel
    ensures msr.Counted() && msr.held == old(msr.held)
    ensures old(msr.Valid()) ==> msr.Valid()
    ensures msr.calls == old(msr.calls) + AllCalls(visits)
    ensures Visited(visits, cpuGroup, UpTo(numLogicalCpus), UpTo(numLogicalCpus), true)
    ensures errors == if SomeFailed(visits) then {W_REGISTER} else {}
    ensures old(msr.moduleLoaded) && old(msr.Valid()) && msr.kernel.reliable ==> errors == {}
  {
    hide *;
    errors, visits := {}, [];
    NoVisits(cpuGroup, true);
    for i := 0 to numLogicalCpus
      invariant msr.Counted() && msr.held == old(msr.held) && (old(msr.moduleLoaded) ==> msr.moduleLoaded)
      invariant old(msr.Valid()) ==> msr.Valid()
      invariant msr.calls == old(msr.calls) + AllCalls(visits)
      invariant Visited(visits, cpuGroup, UpTo(i), UpTo(i), true)
      invariant errors == if SomeFailed(visits) then {W_REGISTER} else {}
      invariant old(msr.moduleLoaded) && old(msr.Valid()) && msr.kernel.reliable ==> errors == {}
    {
      var errs;
      ghost var more;
      errs, more := ApplyEntry(msr, i, cpuGroup, false);
      VisitsJoin(visits, more, cpuGroup, UpTo(i), UpTo(i), [i], [i], true);
      UpToStep(i);
      errors, visits := errors + errs, visits + more;
    }
  }

  class IntelCPU {
    const msr: MSRLinux
    const numCores: nat
    const numLogicalCpus: nat

    constructor (msr: MSRLinux, numCores: nat, numLogicalCpus: nat)
      ensures this.msr == msr && this.numCores == numCores && this.numLogicalCpus == numLogicalCpus
    {
      this.msr, this.numCores, this.numLogicalCpus := msr, numCores, numLogicalCpus;
    }

    /** A fill pass is balanced whichever opens fail, reports exactly the failures, yields as many
        entries as an apply pass asks for, and makes every logical cpu's slot known. */
    method FillDaemonPacket(cpuGroup: bool, coreIdxList: seq<int>)
      returns (package: Entry, coreData: seq<Entry>, threadData: seq<Entry>, errors: set<DError>,
               ghost visits: seq<Visit>)
      requires msr.Counted()
      modifies msr, msr.kernel
      ensures msr.Counted() && msr.held == old(msr.held) && (old(msr.Valid()) ==> msr.Valid())
      ensures msr.calls == old(msr.calls) + AllCalls(visits)
      ensures numCores != |coreIdxList| ==>
        coreData == threadData == [] && errors == {CORE_IDX_MISMATCH} && visits == []
      ensures numCores == |coreIdxList| ==> |coreData| == numCores && |threadData| == numLogicalCpus
      ensures numCores == |coreIdxList| ==>
        var order := [0] + coreIdxList + UpTo(numLogicalCpus); Visited(visits, cpuGroup, order, order, false)
      ensures numCores == |coreIdxList| && cpuGroup ==> Shown([package] + coreData + threadData, visits)
      ensures numCores == |coreIdxList| && cpuGroup
              && old(msr.moduleLoaded) && old(msr.Valid()) && msr.kernel.reliable ==>
        (package == Filled(true) && AllRead(coreData) && AllRead(threadData) && errors == {})
      ensures numCores == |coreIdxList| ==>
        errors == if cpuGroup && (package == Default || Default in coreData || Default in threadData)
                  then {NO_MSR_FD} else {}
      ensures numCores == |coreIdxList| && cpuGroup && old(msr.moduleLoaded) ==>
        SlotsBelow(msr.fdMap.Keys, numLogicalCpus)
    {
      hide MSRLinux.Counted, MSRLinux.Valid, Visited, Shown, AllCalls, UpTo;
      ghost var sure := cpuGroup && msr.moduleLoaded && msr.Valid() && msr.kernel.reliable;
      package, coreData, threadData, errors, visits := Default, [], [], {}, [];
      NoVisits(cpuGroup, false);
      if numCores != |coreIdxList| {
        errors := {CORE_IDX_MISMATCH};
        return;
      }
      package, errors, visits := FillEntry(msr, 0, cpuGroup);
      assert [0] == [0] + coreIdxList[..0] && [package] == [package] + coreData;
      for i := 0 to numCores
        invariant msr.Counted() && msr.held == old(msr.held) && (old(msr.moduleLoaded) ==> msr.moduleLoaded)
        invariant old(msr.Valid()) ==> msr.Valid()
        invariant |coreData| == i && (sure ==> AllRead(coreData))
        invariant errors == if cpuGroup && (package == Default || Default in coreData) then {NO_MSR_FD} else {}
        invariant msr.calls == old(msr.calls) + AllCalls(visits)
        invariant Visited(visits, cpuGroup, [0] + coreIdxList[..i], [0] + coreIdxList[..i], false)
        invariant cpuGroup ==> Shown([package] + coreData, visits)
      {
        ghost var more;
        var entry, errs;
        entry, errs, more := FillEntry(msr, coreIdxList[i], cpuGroup);
        VisitsJoin(visits, more, cpuGroup, [0] + coreIdxList[..i], [0] + coreIdxList[..i], [coreIdxList[i]],
                   [coreIdxList[i]], false);
        if cpuGroup { ShownMore([package] + coreData, visits, [entry], more); }
        assert [package] + coreData + [entry] == [package] + (coreData + [entry]);
        assert [0] + coreIdxList[..i] + [coreIdxList[i]] == [0] + coreIdxList[..i + 1];
        coreData, errors, visits := coreData + [entry], errors + errs, visits + more;
      }
      assert coreIdxList[..numCores] == coreIdxList;
      var threadErrs;
      ghost var more;
      threadData, threadErrs, more := FillThreads(msr, numLogicalCpus, cpuGroup);
      VisitsJoin(visits, more, cpuGroup, [0] + coreIdxList, [0] + coreIdxList, UpTo(numLogicalCpus),
                 UpTo(numLogicalCpus), false);
      if cpuGroup { ShownMore([package] + coreData, visits, threadData, more); }
      errors, visits := errors + threadErrs, visits + more;
    }

    /** applyCoreSettings(cpu, coreIdx): opens coreIdx, closes cpu. */
    method ApplyCoreSettings(cpu: int, coreIdx: int, cpuGroup: bool)
      returns (errors: set<DError>, ghost openOk: bool, ghost visits: seq<Visit>)
      requires msr.Counted()
      modifies msr, msr.kernel
      ensures msr.Counted() && old(msr.fdMap).Keys <= msr.fdMap.Keys
      ensures msr.held == if openOk then old(msr.held) + multiset{coreIdx} - multiset{cpu} else old(msr.held)
      ensures msr.calls == old(msr.calls) + AllCalls(visits) && Visited(visits, cpuGroup, [coreIdx], [cpu], true)
      ensures openOk == (cpuGroup && visits[0].openOk)
      ensures errors == if SomeFailed(visits) then {W_REGISTER} else {}
      ensures old(msr.Valid()) ==> (msr.Valid() <==> !openOk || cpu == coreIdx || cpu in old(msr.fdMap).Keys)
      ensures old(msr.moduleLoaded) ==> msr.moduleLoaded
      ensures old(msr.moduleLoaded) && msr.kernel.reliable ==>
        (openOk == cpuGroup && (old(msr.Valid()) ==> errors == {}))
    {
      hide MSRLinux.Counted, MSRLinux.Valid;
      errors, openOk, visits := {}, false, [];
      if !cpuGroup { return; }
      var ok, wrote := Bracket(msr, coreIdx, cpu, true);
      openOk, visits := ok, [Visit(coreIdx, cpu, true, ok, wrote)];
      OneVisit(visits[0]);
      if ok && !wrote { errors := {W_REGISTER}; }
    }

    /** The core loop over any list, in any state: the holds are those of CorePass. An agreeing table stays
        in agreement if every close finds a slot. */
    method ApplyCores(cpuGroup: bool, coreIdxList: seq<int>)
      returns (errors: set<DError>, ghost openOk: seq<bool>, ghost visits: seq<Visit>)
      requires msr.Counted() && numCores == |coreIdxList|
      modifies msr, msr.kernel
      ensures msr.Counted() && |openOk| == numCores
      ensures msr.held == CorePass(old(msr.held), coreIdxList, openOk)
      ensures msr.calls == old(msr.calls) + AllCalls(visits)
      ensures Visited(visits, cpuGroup, coreIdxList, UpTo(numCores), true) && OpensAre(openOk, cpuGroup, visits)
      ensures errors == if SomeFailed(visits) then {W_REGISTER} else {}
      ensures old(msr.moduleLoaded) ==> msr.moduleLoaded && (msr.kernel.reliable ==> AllAre(openOk, cpuGroup))
      ensures old(msr.Valid()) && CoresClosable(old(msr.fdMap).Keys, coreIdxList, numCores) ==>
        (msr.Valid() && (old(msr.moduleLoaded) && msr.kernel.reliable ==> errors == {}))
    {
      hide *;
      errors, openOk, visits := {}, [], [];
      CorePassNone(msr.held, coreIdxList);
      ClosableWhen(msr.fdMap.Keys, coreIdxList);
      NoVisits(cpuGroup, true);
      NoOpens(cpuGroup);
      assert coreIdxList[..0] == [];
      for i := 0 to numCores
        invariant msr.Counted() && |openOk| == i && old(msr.fdMap).Keys <= msr.fdMap.Keys
        invariant msr.held == CorePass(old(msr.held), coreIdxList[..i], openOk)
        invariant old(msr.moduleLoaded) ==> msr.moduleLoaded
        invariant msr.calls == old(msr.calls) + AllCalls(visits)
        invariant Visited(visits, cpuGroup, coreIdxList[..i], UpTo(i), true) && OpensAre(openOk, cpuGroup, visits)
        invariant errors == if SomeFailed(visits) then {W_REGISTER} else {}
        invariant old(msr.moduleLoaded) && msr.kernel.reliable ==> AllAre(openOk, cpuGroup)
        invariant old(msr.Valid()) && CoresClosable(old(msr.fdMap).Keys, coreIdxList, i) ==>
          (msr.Valid() && (old(msr.moduleLoaded) && msr.kernel.reliable ==> errors == {}))
      {
        CoresClosableStep(old(msr.fdMap).Keys, coreIdxList, i);
        var errs;
        ghost var open, more;
        errs, open, more := ApplyCoreSettings(i, coreIdxList[i], cpuGroup);
        CorePassSnoc(old(msr.held), coreIdxList, openOk, i, open);
        AllAreSnoc(openOk, open);
        VisitsJoin(visits, more, cpuGroup, coreIdxList[..i], UpTo(i), [coreIdxList[i]], [i], true);
        VisitedSize(more, cpuGroup, [coreIdxList[i]], [i], true);
        OpensMore(openOk, cpuGroup, visits, open, more);
        assert coreIdxList[..i] + [coreIdxList[i]] == coreIdxList[..i + 1];
        UpToStep(i);
        errors, openOk, visits := errors + errs, openOk + [open], visits + more;
      }
      assert coreIdxList[..numCores] == coreIdxList;
    }

    /** An apply pass: data that does not match the machine is refused before any register is touched;
        otherwise the holds afterwards are those of the core loop alone, so they are as before when
        every core sits at its own index. An agreeing table stays in agreement if, besides, every
        core number the loop closes has a slot, as after a fill pass. */
    method ApplySettings(cpuGroup: bool, coreIdxList: seq<int>, data: ClientData)
      returns (errors: set<DError>, ghost openOk: seq<bool>, ghost visits: seq<Visit>)
      requires msr.Counted()
      modifies msr, msr.kernel
      ensures msr.Counted() && msr.calls == old(msr.calls) + AllCalls(visits)
      ensures data == Data(numCores, numLogicalCpus) && numCores == |coreIdxList| ==>
        (var order := [0] + coreIdxList + UpTo(numLogicalCpus);
         var closes := [0] + UpTo(numCores) + UpTo(numLogicalCpus);
         && Visited(visits, cpuGroup, order, closes, true)
         && (cpuGroup ==> OpensAre(openOk, true, visits[1..1 + numCores])))
      ensures data != Data(numCores, numLogicalCpus) || numCores != |coreIdxList| ==> visits == []
      ensures NO_MSR_FD in errors <==> visits != [] && !visits[0].openOk
      ensures W_REGISTER in errors <==> SomeFailed(visits)
      ensures data.NoData? ==> errors == {}
      ensures CORE_DATA_MISMATCH in errors <==> data.Data? && numCores != data.coreCount
      ensures THREAD_DATA_MISMATCH in errors <==>
                data.Data? && numCores == data.coreCount && numLogicalCpus != data.threadCount
      ensures CORE_IDX_MISMATCH in errors <==>
                data == Data(numCores, numLogicalCpus) && numCores != |coreIdxList|
      ensures data != Data(numCores, numLogicalCpus) || numCores != |coreIdxList| ==>
        openOk == [] && msr.held == old(msr.held) && (old(msr.Valid()) ==> msr.Valid())
      ensures data == Data(numCores, numLogicalCpus) && numCores == |coreIdxList| ==>
        |openOk| == |coreIdxList| && msr.held == CorePass(old(msr.held), coreIdxList, openOk)
      ensures IndexedByPosition(coreIdxList) || openOk == [] ==> msr.held == old(msr.held)
      ensures old(msr.Valid()) && (IndexedByPosition(coreIdxList) || SlotsBelow(old(msr.fdMap).Keys, numCores)) ==>
        msr.Valid()
      ensures data == Data(numCores, numLogicalCpus) && numCores == |coreIdxList|
              && old(msr.moduleLoaded) && msr.kernel.reliable ==>
        AllAre(openOk, cpuGroup)
        && (old(msr.Valid()) && (IndexedByPosition(coreIdxList) || SlotsBelow(old(msr.fdMap).Keys, numCores)) ==>
              errors == {})
    {
      hide *;
      errors, openOk, visits := {}, [], [];
      NoVisits(cpuGroup, true);
      if data.NoData? { return; }
      if numCores != data.coreCount { return {CORE_DATA_MISMATCH}, [], []; }
      if numLogicalCpus != data.threadCount { return {THREAD_DATA_MISMATCH}, [], []; }
      if numCores != |coreIdxList| { return {CORE_IDX_MISMATCH}, [], []; }
      ghost var first, coreVisits;
      errors, first := ApplyEntry(msr, 0, cpuGroup, true);
      SlotsStay(old(msr.fdMap).Keys, msr.fdMap.Keys, numCores);
      ClosableWhen(msr.fdMap.Keys, coreIdxList);
      var coreErrs;
      coreErrs, openOk, coreVisits := ApplyCores(cpuGroup, coreIdxList);
      errors := errors + coreErrs;
      BalancedList(old(msr.held), coreIdxList, openOk);
      ghost var fine := old(msr.Valid())
        && (IndexedByPosition(coreIdxList) || SlotsBelow(old(msr.fdMap).Keys, numCores));
      visits := first + coreVisits;
      VisitsJoin(first, coreVisits, cpuGroup, [0], [0], coreIdxList, UpTo(numCores), true);
      ghost var opens, closes := [0] + coreIdxList, [0] + UpTo(numCores);
      var threadErrs;
      ghost var more;
      threadErrs, more := ApplyThreads(msr, numLogicalCpus, cpuGroup);
      VisitsJoin(visits, more, cpuGroup, opens, closes, UpTo(numLogicalCpus), UpTo(numLogicalCpus), true);
      VisitedSize(more, cpuGroup, UpTo(numLogicalCpus), UpTo(numLogicalCpus), true);
      CoreOpens(first, coreVisits, more, cpuGroup, coreIdxList, openOk);
      errors, visits := errors + threadErrs, visits + more;
    }
  }

  /** The first visit of an apply pass is the package's; those of the core loop follow. */
  lemma CoreOpens(first: seq<Visit>, cores: seq<Visit>, more: seq<Visit>, cpuGroup: bool, coreIdxList: seq<int>,
                  openOk: seq<bool>)
    requires Visited(first, cpuGroup, [0], [0], true) && (!cpuGroup ==> more == [])
    requires Visited(cores, cpuGroup, coreIdxList, UpTo(|coreIdxList|), true) && OpensAre(openOk, cpuGroup, cores)
    ensures var visits := first + cores + more;
      if cpuGroup then
        && first != [] && visits != [] && visits[0] == first[0]
        && |visits| >= 1 + |coreIdxList| && OpensAre(openOk, true, visits[1..1 + |coreIdxList|])
      else first == [] && visits == []
  {
    if cpuGroup { assert (first + cores + more)[1..1 + |coreIdxList|] == cores; }
  }

  lemma SlotsStay(slots: set<int>, more: set<int>, n: nat)
    requires slots <= more
    ensures SlotsBelow(slots, n) ==> SlotsBelow(more, n)
  {
  }

  lemma CorePassNone(held: multiset<int>, coreIdxList: seq<int>)
    ensures CorePass(held, coreIdxList[..0], []) == held && AllAre([], true) && AllAre([], false)
  {
  }

  /** The AMD passes: no descriptor is opened for a core, so both passes are always balanced. */
  class AMDCPU {
    const msr: MSRLinux
    const numCores: nat
    const numLogicalCpus: nat

    constructor (msr: MSRLinux, numCores: nat, numLogicalCpus: nat)
      ensures this.msr == msr && this.numCores == numCores && this.numLogicalCpus == numLogicalCpus
    {
      this.msr, this.numCores, this.numLogicalCpus := msr, numCores, numLogicalCpus;
    }

    method FillDaemonPacket(cpuGroup: bool, coreIdxList: seq<int>)
      returns (package: Entry, coreData: seq<Entry>, threadData: seq<Entry>, errors: set<DError>,
               ghost visits: seq<Visit>)
      requires msr.Counted()
      modifies msr, msr.kernel
      ensures msr.Counted() && msr.held == old(msr.held) && (old(msr.Valid()) ==> msr.Valid())
      ensures msr.calls == old(msr.calls) + AllCalls(visits)
      ensures numCores != |coreIdxList| ==>
        coreData == threadData == [] && errors == {CORE_IDX_MISMATCH} && visits == []
      ensures numCores == |coreIdxList| ==>
        var order := [0] + UpTo(numLogicalCpus); Visited(visits, cpuGroup, order, order, false)
      ensures numCores == |coreIdxList| && cpuGroup ==> Shown([package] + threadData, visits)
      ensures numCores == |coreIdxList| ==> coreData == seq(numCores, i => Default) && |threadData| == numLogicalCpus
      ensures numCores == |coreIdxList| && cpuGroup
              && old(msr.moduleLoaded) && old(msr.Valid()) && msr.kernel.reliable ==>
        (package == Filled(true) && AllRead(threadData) && errors == {})
      ensures numCores == |coreIdxList| ==>
        errors == if cpuGroup && (package == Default || Default in threadData) then {NO_MSR_FD} else {}
    {
      hide MSRLinux.Counted, MSRLinux.Valid, Visited, Shown, AllCalls, UpTo;
      ghost var sure := cpuGroup && msr.moduleLoaded && msr.Valid() && msr.kernel.reliable;
      package, coreData, threadData, errors, visits := Default, [], [], {}, [];
      NoVisits(cpuGroup, false);
      if numCores != |coreIdxList| {
        errors := {CORE_IDX_MISMATCH};
        return;
      }
      package, errors, visits := FillEntry(msr, 0, cpuGroup);
      for i := 0 to numCores
        invariant coreData == seq(i, j => Default)
      {
        coreData := coreData + [Default];
      }
      var threadErrs;
      ghost var more;
      threadData, threadErrs, more := FillThreads(msr, numLogicalCpus, cpuGroup);
      VisitsJoin(visits, more, cpuGroup, [0], [0], UpTo(numLogicalCpus), UpTo(numLogicalCpus), false);
      if cpuGroup { ShownMore([package], visits, threadData, more); }
      errors, visits := errors + threadErrs, visits + more;
    }

    method ApplySettings(cpuGroup: bool, coreIdxList: seq<int>, data: ClientData)
      returns (errors: set<DError>, ghost visits: seq<Visit>)
      requires msr.Counted()
      modifies msr, msr.kernel
      ensures msr.Counted() && msr.held == old(msr.held) && (old(msr.Valid()) ==> msr.Valid())
      ensures msr.calls == old(msr.calls) + AllCalls(visits)
      ensures data == Data(numCores, numLogicalCpus) && numCores == |coreIdxList| ==>
        var order := [0] + UpTo(numLogicalCpus); Visited(visits, cpuGroup, order, order, true)
      ensures data != Data(numCores, numLogicalCpus) || numCores != |coreIdxList| ==> visits == []
      ensures NO_MSR_FD in errors <==> visits != [] && !visits[0].openOk
      ensures W_REGISTER in errors <==> SomeFailed(visits)
      ensures data.NoData? ==> errors == {}
      ensures CORE_DATA_MISMATCH in errors <==> data.Data? && numCores != data.coreCount
      ensures THREAD_DATA_MISMATCH in errors <==>
                data.Data? && numCores == data.coreCount && numLogicalCpus != data.threadCount
      ensures CORE_IDX_MISMATCH in errors <==>
                data == Data(numCores, numLogicalCpus) && numCores != |coreIdxList|
      ensures data == Data(numCores, numLogicalCpus) && numCores == |coreIdxList|
              && old(msr.moduleLoaded) && old(msr.Valid()) && msr.kernel.reliable ==>
        errors == {}
    {
      hide MSRLinux.Counted, MSRLinux.Valid, Visited, AllCalls, SomeFailed, UpTo;
      visits := [];
      NoVisits(cpuGroup, true);
      if data.NoData? { return {}, []; }
      if numCores != data.coreCount { return {CORE_DATA_MISMATCH}, []; }
      if numLogicalCpus != data.threadCount { return {THREAD_DATA_MISMATCH}, []; }
      if numCores != |coreIdxList| { return {CORE_IDX_MISMATCH}, []; }
      errors, visits := ApplyEntry(msr, 0, cpuGroup, true);
      VisitedSize(visits, cpuGroup, [0], [0], true);
      var threadErrs;
      ghost var more;
      threadErrs, more := ApplyThreads(msr, numLogicalCpus, cpuGroup);
      VisitedSize(more, cpuGroup, UpTo(numLogicalCpus), UpTo(numLogicalCpus), true);
      VisitsJoin(visits, more, cpuGroup, [0], [0], UpTo(numLogicalCpus), UpTo(numLogicalCpus), true);
      errors, visits := errors + threadErrs, visits + more;
    }
  }

  /** What a fill pass delivers is accepted by an apply pass of the same machine, for any core list of the
      right length; the pair leaves every count as found when cores sit at their own index, and with the
      module loaded the table keeps agreeing with the kernel wherever the cores sit, because the
      fill pass made every core number's slot known. */
  method FillThenApply(cpu: IntelCPU, cpuGroup: bool, coreIdxList: seq<int>) returns (errors: set<DError>)
    requires cpu.msr.Counted() && cpu.numCores == |coreIdxList|
    modifies cpu.msr, cpu.msr.kernel
    ensures cpu.msr.Counted() && (IndexedByPosition(coreIdxList) ==> cpu.msr.held == old(cpu.msr.held))
    ensures errors !! {CORE_IDX_MISMATCH, CORE_DATA_MISMATCH, THREAD_DATA_MISMATCH}
    ensures old(cpu.msr.Valid()) && cpuGroup && old(cpu.msr.moduleLoaded) && cpu.numCores <= cpu.numLogicalCpus ==>
      cpu.msr.Valid()
  {
    hide MSRLinux.Counted, MSRLinux.Valid, CorePass;
    var package, cores, threads, fillErrors;
    ghost var visits, openOk;
    package, cores, threads, fillErrors, visits := cpu.FillDaemonPacket(cpuGroup, coreIdxList);
    errors, openOk, visits := cpu.ApplySettings(cpuGroup, coreIdxList, Data(|cores|, |threads|));
  }
}
