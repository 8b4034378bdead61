/**
 * A compiled program in the execution engine: the events of a hosted process run the program's
 * callables exactly as the program's own steps do, so a process runs what the source says.
 */
module Execution {
  import opened Metric
  import opened Wrappers
  import opened Compiler
  import opened CompilerLayout
  import opened CompilerCorrectness
  import opened Events

  // ---- Two-byte ids ----

  function TaskBytes(id: nat): (b: Bytes)
    requires id < MAX_IDS
    ensures |b| == 2 && 256 * (b[0] as int) + b[1] as int == id
  {
    [id / 256, id % 256]
  }

  lemma TaskBytesInjective(a: nat, b: nat)
    requires a < MAX_IDS && b < MAX_IDS && TaskBytes(a) == TaskBytes(b)
    ensures a == b
  {
    assert TaskBytes(a)[0] == TaskBytes(b)[0] && TaskBytes(a)[1] == TaskBytes(b)[1];
  }

  ghost predicate TwoBytes(p: Program) {
    && (forall x :: x in p.ids ==> p.ids[x] < MAX_IDS)
    && SmallChoices(p.tasks)
  }

  ghost predicate SmallChoices(tasks: map<nat, Code>) {
    forall t :: t in tasks && tasks[t].Dispatch? ==> Small(tasks[t].choices)
  }

  ghost predicate Small(cs: seq<Choice>) {
    forall k :: 0 <= k < |cs| ==> cs[k].id < MAX_IDS
  }

  lemma {:induction false} AddSmall(cs: seq<Choice>, c: Choice)
    requires Small(cs) && c.id < MAX_IDS
    ensures Small(AddChoice(cs, c))
  {
    if cs != [] && cs[0].cond != c.cond { AddSmall(cs[1..], c); }
  }

  lemma {:induction false} ChoicesSmall<D>(alts: seq<Alternative<D>>, base: nat, n: nat)
    requires n <= |alts| && base + n <= MAX_IDS
    ensures Small(Choices(alts, base, n))
  {
    if n > 0 {
      ChoicesSmall(alts, base, n - 1);
      AddSmall(Choices(alts, base, n - 1), Choice(alts[n - 1].cond, base + n - 1));
    }
  }

  ghost predicate Fitting(b: Build) {
    (forall x :: x in b.ids ==> b.ids[x] < MAX_IDS) && SmallChoices(b.tasks)
  }

  lemma NextFits(b: Build, name: string, code: Code)
    requires Fitting(b) && b.next < MAX_IDS && (code.Dispatch? ==> Small(code.choices))
    ensures Fitting(Next(b, name, code))
  {
  }

  lemma {:induction false} AltsFit<D>(b: Build, group: Group<D>, g: nat, n: nat)
    requires n <= |group.alts| && Fitting(b) && b.next + n <= MAX_IDS
    ensures Fitting(WithAlts(b, group, g, n))
  {
    hide Fitting, WithAlts, Next;
    if n == 0 {
      NoAlts(b, group, g);
    } else {
      AltsFit(b, group, g, n - 1);
      AltsCount(b, group, g, n - 1);
      WithAltsStep(b, group, g, n);
      NextFits(WithAlts(b, group, g, n - 1), AltName(group.name, n - 1), User(AltRef(g, n - 1)));
    }
  }

  lemma GroupFits<D>(b: Build, group: Group<D>, g: nat)
    requires Fitting(b) && WithGroup(b, group, g).next <= MAX_IDS
    ensures Fitting(WithGroup(b, group, g))
  {
    hide Fitting, WithAlts, Next, WithGroup, Choices;
    var n := |group.alts|;
    GroupNext(b, group, g);
    AltsFit(b, group, g, n);
    AltsCount(b, group, g, n);
    WithGroupStep(b, group, g);
    ChoicesSmall(group.alts, b.next, n);
    NextFits(WithAlts(b, group, g, n), group.name, Dispatch(Choices(group.alts, b.next, n)));
  }

  lemma {:induction false} GroupsFit<D>(b: Build, groups: seq<Group<D>>, n: nat)
    requires n <= |groups| && Fitting(b) && WithGroups(b, groups, n).next <= MAX_IDS
    ensures Fitting(WithGroups(b, groups, n))
  {
    hide Fitting, WithGroup;
    if n > 0 {
      GroupsGrow(b, groups, n - 1, n);
      GroupsFit(b, groups, n - 1);
      GroupFits(WithGroups(b, groups, n - 1), groups[n - 1], n - 1);
    }
  }

  lemma {:induction false} PlainIdsSmall<D>(plain: seq<Plain<D>>, n: nat)
    requires n <= |plain|
    ensures forall x :: x in PlainIds(plain, n) ==> PlainIds(plain, n)[x] < n
  {
    if n > 0 { PlainIdsSmall(plain, n - 1); }
  }

  lemma {:induction false} PlainTasksUser<D>(plain: seq<Plain<D>>, ids: map<string, nat>, n: nat)
    requires n <= |plain| && forall i :: 0 <= i < |plain| ==> plain[i].name in ids
    ensures forall t :: t in PlainTasks(plain, ids, n) ==> PlainTasks(plain, ids, n)[t].User?
  {
    if n > 0 { PlainTasksUser(plain, ids, n - 1); }
  }

  /** Every id of a compiled program, and every id a dispatcher may choose, fits two bytes. */
  lemma CompiledFits<D>(s: Source<D>, start: string)
    requires Compiled(s, start).Success?
    ensures TwoBytes(Compiled(s, start).value)
  {
    var ids := PlainIds(s.plain, |s.plain|);
    PlainIdsSmall(s.plain, |s.plain|);
    PlainTasksUser(s.plain, ids, |s.plain|);
    hide PlainIds, PlainTasks, WithGroups;
    GroupsFit(PlainBuild(s), s.groups, |s.groups|);
  }

  // ---- One event and one step ----

  type Conds = Conditions<Bytes>

  /** The event is addressed to the task the program is about to run, on its data. */
  ghost predicate Carries(e: Event, c: CConfig<Bytes>) {
    && e.target.Some? && c.Running? && c.id < MAX_IDS
    && e.target.value.id.task == TaskBytes(c.id) && e.data == c.data && e.checkpoint == c.checkpoint
  }

  /** What the callable of a task replies when the program's step leads to c: an event for the next
      task, or none after the end or an exception. */
  ghost predicate Replies(c: CConfig<Bytes>, r: Option<Events.Reply>) {
    match c
    case Running(id, data, ck) =>
      r.Some? && id < MAX_IDS && r.value.task == TaskBytes(id) && r.value.data == data && r.value.checkpoint == ck
    case _ => r == None
  }

  /** x runs in the engine, its callable replies as the program does, and y is what arrives. */
  ghost predicate HostedHop(s: Source<Bytes>, p: Program, ev: Conds, x: Event, y: Event) {
    exists c: CConfig<Bytes>, r: Events.Reply, monitor: Bytes ::
      Carries(x, c) && Replies(CStep(s, p, ev, c).1, Some(r)) && y == Entered(FromPb(ToPb(Output(x, r))), monitor)
  }

  /** The events of a process that hosts the program, in order, from its start event on. */
  ghost predicate Hosted(s: Source<Bytes>, p: Program, ev: Conds, es: seq<Event>) {
    && es != [] && es[0].target.Some? && es[0].origin == None && es[0].previous == None
    && forall i :: 0 < i < |es| ==> HostedAt(s, p, ev, es, i)
  }

  ghost predicate HostedAt(s: Source<Bytes>, p: Program, ev: Conds, es: seq<Event>, i: int)
    requires 0 < i < |es|
  {
    HostedHop(s, p, ev, es[i - 1], es[i])
  }

  lemma CarriesOne(e: Event, c: CConfig<Bytes>, d: CConfig<Bytes>)
    requires Carries(e, c) && Carries(e, d)
    ensures c == d
  {
    TaskBytesInjective(c.id, d.id);
  }

  /** What arrives after a hop carries what the callable replied. */
  lemma Arrives(x: Event, d: CConfig<Bytes>, r: Events.Reply, monitor: Bytes)
    requires x.target.Some? && Replies(d, Some(r))
    ensures Carries(Entered(FromPb(ToPb(Output(x, r))), monitor), d)
  {
    hide OldEvent, OldEventPre, ToPb, FromPb;
    EncodingRoundTrip(Output(x, r));
  }

  lemma HopCarries(s: Source<Bytes>, p: Program, ev: Conds, x: Event, y: Event, c: CConfig<Bytes>)
    requires HostedHop(s, p, ev, x, y) && Carries(x, c)
    ensures Carries(y, CStep(s, p, ev, c).1) && Hop(x, y)
  {
    var d: CConfig<Bytes>, r: Events.Reply, monitor: Bytes :|
      Carries(x, d) && Replies(CStep(s, p, ev, d).1, Some(r)) && y == Entered(FromPb(ToPb(Output(x, r))), monitor);
    CarriesOne(x, c, d);
    hide CStep, OldEvent, OldEventPre, ToPb, FromPb, Replies;
    Arrives(x, CStep(s, p, ev, c).1, r, monitor);
  }

  lemma HostedIsProcess(s: Source<Bytes>, p: Program, ev: Conds, es: seq<Event>)
    requires Hosted(s, p, ev, es)
    ensures Process(es)
  {
    forall i | 0 < i < |es| ensures HopAt(es, i) {
      assert HostedAt(s, p, ev, es, i);
      var d: CConfig<Bytes> :| Carries(es[i - 1], d);
      hide Hop;
      HopCarries(s, p, ev, es[i - 1], es[i], d);
    }
  }

  // ---- Whole processes ----

  lemma {:induction false} CEndLast<D>(s: Source<D>, p: Program, ev: Conditions<D>, c: CConfig<D>, k: nat)
    requires k > 0
    ensures CEnd(s, p, ev, c, k) == CStep(s, p, ev, CEnd(s, p, ev, c, k - 1)).1
    ensures CTrace(s, p, ev, c, k) == CTrace(s, p, ev, c, k - 1) + CStep(s, p, ev, CEnd(s, p, ev, c, k - 1)).0
    decreases k
  {
    hide CStep;
    CRunStep(s, p, ev, c, k);
    CRunStep(s, p, ev, c, k - 1);
    CRunStep(s, p, ev, CStep(s, p, ev, c).1, 0);
    hide CEnd, CTrace;
    if k > 1 { CEndLast(s, p, ev, CStep(s, p, ev, c).1, k - 1); }
  }

  /** The i-th event of a hosted process carries what the program has come to after i steps. */
  lemma {:induction false} HostedRuns(s: Source<Bytes>, p: Program, ev: Conds, es: seq<Event>, c: CConfig<Bytes>, i: nat)
    requires Hosted(s, p, ev, es) && Carries(es[0], c) && i < |es|
    ensures Carries(es[i], CEnd(s, p, ev, c, i))
    decreases i
  {
    if i > 0 {
      HostedRuns(s, p, ev, es, c, i - 1);
      assert HostedAt(s, p, ev, es, i);
      hide CStep, CEnd, HostedHop, Carries;
      HopCarries(s, p, ev, es[i - 1], es[i], CEnd(s, p, ev, c, i - 1));
      CEndLast(s, p, ev, c, i);
    } else {
      CRunStep(s, p, ev, c, 0);
    }
  }

  /** The user function the engine runs for an event, found by the two bytes of its task. */
  function Ran(s: Source<Bytes>, p: Program, e: Event): seq<Visit<Bytes>> {
    if e.target.None? || |e.target.value.id.task| != 2 then []
    else
      var high: nat, low: nat := e.target.value.id.task[0], e.target.value.id.task[1];
      var id := 256 * high + low;
      if id in p.tasks && p.tasks[id].User? && BodyOf(s, p.tasks[id].ref).Success? then
        [Visit(p.tasks[id].ref, e.data, e.checkpoint)]
      else []
  }

  function AllRan(s: Source<Bytes>, p: Program, es: seq<Event>): seq<Visit<Bytes>>
    decreases |es|
  {
    if es == [] then [] else AllRan(s, p, es[..|es| - 1]) + Ran(s, p, es[|es| - 1])
  }

  lemma RanIsStep(s: Source<Bytes>, p: Program, ev: Conds, e: Event, c: CConfig<Bytes>)
    requires Carries(e, c)
    ensures Ran(s, p, e) == CStep(s, p, ev, c).0
  {
    assert 256 * (c.id / 256) + c.id % 256 == c.id;
    hide BodyOf, Deliver, FirstChoice;
  }

  /** The first j events of a hosted process run what the program runs in j steps. */
  lemma {:induction false} HostedVisits(s: Source<Bytes>, p: Program, ev: Conds, es: seq<Event>, c: CConfig<Bytes>, j: nat)
    requires Hosted(s, p, ev, es) && Carries(es[0], c) && j <= |es|
    ensures AllRan(s, p, es[..j]) == CTrace(s, p, ev, c, j)
    decreases j
  {
    hide Hosted, Carries, CStep, Ran;
    if j == 0 {
      CRunStep(s, p, ev, c, 0);
    } else {
      HostedVisits(s, p, ev, es, c, j - 1);
      HostedRuns(s, p, ev, es, c, j - 1);
      CEndLast(s, p, ev, c, j);
      RanIsStep(s, p, ev, es[j - 1], CEnd(s, p, ev, c, j - 1));
      assert es[..j][..j - 1] == es[..j - 1] && es[..j][j - 1] == es[j - 1];
    }
  }

  /** A compiled step leads to a task with a two-byte id. */
  lemma StepFits(s: Source<Bytes>, p: Program, ev: Conds, c: CConfig<Bytes>)
    requires TwoBytes(p) && c.Running? && c.id < MAX_IDS
    ensures var d := CStep(s, p, ev, c).1; d.Running? ==> d.id < MAX_IDS
  {
    if c.id in p.tasks && p.tasks[c.id].Dispatch? {
      assert Small(p.tasks[c.id].choices);
    }
    hide FirstChoice, BodyOf, Checkpoints;
  }

  lemma {:induction false} StillRunning<D>(s: Source<D>, p: Program, ev: Conditions<D>, c: CConfig<D>, k: nat)
    requires k > 0 && CEnd(s, p, ev, c, k).Running?
    ensures CEnd(s, p, ev, c, k - 1).Running?
  {
    CEndLast(s, p, ev, c, k);
    hide CEnd;
  }

  function ReplyFor(d: CConfig<Bytes>): Events.Reply
    requires d.Running? && d.id < MAX_IDS
  {
    Events.Reply(TaskBytes(d.id), false, d.data, d.checkpoint, "")
  }

  /** One more event of a hosted process. */
  lemma OneMore(s: Source<Bytes>, p: Program, ev: Conds, es: seq<Event>, c: CConfig<Bytes>) returns (fs: seq<Event>)
    requires Hosted(s, p, ev, es) && TwoBytes(p) && Carries(es[|es| - 1], c) && CStep(s, p, ev, c).1.Running?
    ensures Hosted(s, p, ev, fs) && |fs| == |es| + 1 && fs[0] == es[0]
  {
    var x := es[|es| - 1];
    StepFits(s, p, ev, c);
    var d := CStep(s, p, ev, c).1;
    var r := ReplyFor(d);
    var y := Entered(FromPb(ToPb(Output(x, r))), []);
    assert Replies(d, Some(r));
    hide CStep, Output, ToPb, FromPb, Entered, Carries, Replies;
    assert HostedHop(s, p, ev, x, y);
    hide HostedHop;
    fs := es + [y];
    forall i | 0 < i < |fs| ensures HostedAt(s, p, ev, fs, i) {
      if i < |es| {
        assert HostedAt(s, p, ev, es, i);
        assert fs[i] == es[i] && fs[i - 1] == es[i - 1];
      }
    }
  }

  /** Whatever the program does, a process of the engine does it. */
  lemma {:induction false} RunIsHosted(s: Source<Bytes>, p: Program, ev: Conds, e: Event, c: CConfig<Bytes>, k: nat)
    returns (es: seq<Event>)
    requires TwoBytes(p) && Carries(e, c) && e.origin == None && e.previous == None && CEnd(s, p, ev, c, k).Running?
    ensures Hosted(s, p, ev, es) && |es| == k + 1 && es[0] == e
    decreases k
  {
    if k == 0 {
      es := [e];
    } else {
      StillRunning(s, p, ev, c, k);
      es := RunIsHosted(s, p, ev, e, c, k - 1);
      hide Carries, CEnd, CStep, TwoBytes;
      HostedRuns(s, p, ev, es, c, k - 1);
      CEndLast(s, p, ev, c, k);
      es := OneMore(s, p, ev, es, CEnd(s, p, ev, c, k - 1));
    }
  }

  // ---- The source executed ----

  /** A run of the program that is over has a last step. */
  lemma {:induction false} LastStep<D>(s: Source<D>, p: Program, ev: Conditions<D>, c: CConfig<D>, m: nat) returns (j: nat)
    requires c.Running?
    ensures j <= m && CTrace(s, p, ev, c, j) == CTrace(s, p, ev, c, m) && CEnd(s, p, ev, c, j) == CEnd(s, p, ev, c, m)
    ensures (j == 0 || CEnd(s, p, ev, c, j - 1).Running?) && (j == 0 ==> m == 0)
    decreases m
  {
    hide CTrace, CEnd;
    if m == 0 { return 0; }
    CEndLast(s, p, ev, c, m);
    if CEnd(s, p, ev, c, m - 1).Running? { return m; }
    j := LastStep(s, p, ev, c, m - 1);
    if j == 0 { CRunStep(s, p, ev, c, 0); }
    assert j > 0;
  }

  /** The program's first j steps and its process es: the events run what the steps do, and there is a
      next event exactly when the program goes on. */
  ghost predicate Executed(s: Source<Bytes>, p: Program, ev: Conds, c: CConfig<Bytes>, e: Event, es: seq<Event>, j: nat) {
    && Hosted(s, p, ev, es) && es[0] == e && j <= |es| && AllRan(s, p, es[..j]) == CTrace(s, p, ev, c, j)
    && var d := CEnd(s, p, ev, c, j);
    && if d.Running? then |es| == j + 1 && Carries(es[j], d) else |es| == j && Replies(d, None)
  }

  lemma ProgramExecuted(s: Source<Bytes>, p: Program, ev: Conds, c: CConfig<Bytes>, e: Event, j: nat) returns (es: seq<Event>)
    requires TwoBytes(p) && Carries(e, c) && e.origin == None && e.previous == None
    requires j == 0 || CEnd(s, p, ev, c, j - 1).Running?
    ensures Executed(s, p, ev, c, e, es, j)
  {
    hide TwoBytes, CEnd, CTrace, Carries, AllRan, Hosted;
    CRunStep(s, p, ev, c, 0);
    if CEnd(s, p, ev, c, j).Running? {
      es := RunIsHosted(s, p, ev, e, c, j);
      HostedRuns(s, p, ev, es, c, j);
    } else {
      assert j > 0 by { if j == 0 { StartsRunning(e, c); } }
      es := RunIsHosted(s, p, ev, e, c, j - 1);
    }
    HostedVisits(s, p, ev, es, c, j);
  }

  lemma StartsRunning(e: Event, c: CConfig<Bytes>)
    requires Carries(e, c)
    ensures c.Running?
  {
  }

  /** The event that starts a program, on the given data. */
  ghost predicate Starts(e: Event, s: Source<Bytes>, start: string, data: Bytes)
    requires Compiled(s, start).Success?
  {
    e.origin == None && e.previous == None && Carries(e, Running(Compiled(s, start).value.start, data, true))
  }

  /**
   * Whatever a source does in k steps, a process of the engine that hosts its compilation does: the
   * events run the same user functions on the same data, and the process goes on, with an event for the
   * task the source has come to, or ends, as the source does.
   */
  lemma SourceExecutes(s: Source<Bytes>, start: string, ev: Conds, data: Bytes, e: Event, k: nat) returns (es: seq<Event>, j: nat)
    requires Distinct(s) && ':' !in start && Compiled(s, start).Success? && Starts(e, s, start, data)
    ensures var p := Compiled(s, start).value; var n := At(start, data, true); var c := Running(p.start, data, true);
      && Executed(s, p, ev, c, e, es, j) && Process(es)
      && AllRan(s, p, es[..j]) == NTrace(s, ev, NCrashed, n, k)
      && Same(s, p, NEnd(s, ev, NCrashed, n, k), CEnd(s, p, ev, c, j))
  {
    var p, n := Compiled(s, start).value, At(start, data, true);
    var c := Running(p.start, data, true);
    StartMatches(s, start, data);
    CompiledFits(s, start);
    hide *;
    var m := SourceRunsCompile(s, p, ev, n, c, k);
    j := LastStep(s, p, ev, c, m);
    StartOf(e, s, start, data);
    es := ProgramExecuted(s, p, ev, c, e, j);
    ExecutedParts(s, p, ev, c, e, es, j);
    MatchedParts(s, p, ev, n, k, c, m);
    HostedIsProcess(s, p, ev, es);
  }

  lemma StartOf(e: Event, s: Source<Bytes>, start: string, data: Bytes)
    requires Compiled(s, start).Success? && Starts(e, s, start, data)
    ensures e.origin == None && e.previous == None && Carries(e, Running(Compiled(s, start).value.start, data, true))
  {
  }

  lemma ExecutedParts(s: Source<Bytes>, p: Program, ev: Conds, c: CConfig<Bytes>, e: Event, es: seq<Event>, j: nat)
    requires Executed(s, p, ev, c, e, es, j)
    ensures Hosted(s, p, ev, es) && j <= |es| && AllRan(s, p, es[..j]) == CTrace(s, p, ev, c, j)
  {
  }

  lemma MatchedParts(s: Source<Bytes>, p: Program, ev: Conds, n: NConfig<Bytes>, k: nat, c: CConfig<Bytes>, m: nat)
    requires Matched(s, p, ev, n, k, c, m)
    ensures CTrace(s, p, ev, c, m) == NTrace(s, ev, NCrashed, n, k)
    ensures Same(s, p, NEnd(s, ev, NCrashed, n, k), CEnd(s, p, ev, c, m))
  {
  }

  /** And whatever a process that hosts the compilation of a source runs, a run of the source does. */
  lemma ProcessHasSource(s: Source<Bytes>, start: string, ev: Conds, data: Bytes, es: seq<Event>, j: nat) returns (k: nat)
    requires Distinct(s) && ':' !in start && Compiled(s, start).Success? && j <= |es|
    requires Hosted(s, Compiled(s, start).value, ev, es) && Starts(es[0], s, start, data)
    ensures k <= j && AllRan(s, Compiled(s, start).value, es[..j]) == NTrace(s, ev, NCrashed, At(start, data, true), k)
  {
    var p, n := Compiled(s, start).value, At(start, data, true);
    var c := Running(p.start, data, true);
    StartMatches(s, start, data);
    hide Compiled, IsCompiled, Same, Between, NTrace, CTrace, NEnd, CEnd, AllRan, Distinct, Carries, Hosted;
    k := CompiledRunsHaveSources(s, p, ev, n, c, j);
    HostedVisits(s, p, ev, es, c, j);
  }
}
