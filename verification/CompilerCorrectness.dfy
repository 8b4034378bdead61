/**
 * The compiled program and the source run the same user functions on the same data: dispatcher
 * steps, which the compiler adds, are the only difference.
 */
module CompilerCorrectness {
  import opened Compiler
  import opened CompilerLayout
  import opened Wrappers

  /** What a condition string evaluates to. */
  type Conditions<!D> = string -> D -> bool

  /** One run of a user function: which one, on what data, on a checkpoint event or not. */
  datatype Visit<D> = Visit(ref: Ref, data: D, checkpoint: bool)

  // ---- Name-based semantics of the source ----

  datatype NConfig<D> = At(name: string, data: D, checkpoint: bool) | NHalted | NCrashed

  function PlainIndex<D>(plain: seq<Plain<D>>, name: string): (i: nat)
    ensures i <= |plain| && (i < |plain| ==> plain[i].name == name)
    ensures forall j :: 0 <= j < i ==> plain[j].name != name
  {
    if plain == [] then 0 else if plain[0].name == name then 0 else 1 + PlainIndex(plain[1..], name)
  }

  /** The first alternative whose condition holds, or the number of alternatives. */
  function First<D>(ev: Conditions<D>, alts: seq<Alternative<D>>, data: D): (i: nat)
    ensures i <= |alts|
    ensures forall j :: 0 <= j < i ==> !ev(alts[j].cond)(data)
    ensures i < |alts| ==> ev(alts[i].cond)(data)
  {
    if alts == [] then 0 else if ev(alts[0].cond)(data) then 0 else 1 + First(ev, alts[1..], data)
  }

  /** The last alternative with condition string cond among the first n. */
  function LastWith<D>(alts: seq<Alternative<D>>, cond: string, n: nat): (i: nat)
    requires n <= |alts| && exists j :: 0 <= j < n && alts[j].cond == cond
    ensures i < n && alts[i].cond == cond && forall j :: i < j < n ==> alts[j].cond != cond
  {
    if alts[n - 1].cond == cond then n - 1 else LastWith(alts, cond, n - 1)
  }

  /** The alternative a group runs: the first one that holds, or the latest one that replaced it
      by repeating its condition string. */
  function Pick<D>(ev: Conditions<D>, alts: seq<Alternative<D>>, data: D): (i: nat)
    ensures i <= |alts|
  {
    var f := First(ev, alts, data);
    if f == |alts| then f else LastWith(alts, alts[f].cond, |alts|)
  }

  /** Pick is the first alternative that holds exactly when no later one repeats its condition string. */
  lemma PickIsFirst<D>(ev: Conditions<D>, alts: seq<Alternative<D>>, data: D)
    ensures var f := First(ev, alts, data);
      Pick(ev, alts, data) == f <==> f == |alts| || forall j :: f < j < |alts| ==> alts[j].cond != alts[f].cond
  {
  }

  /** For one: of two alternatives under one condition string the second runs. */
  lemma RepeatedCondition<D>(f: D -> Reply<D>, g: D -> Reply<D>, cond: string, ev: Conditions<D>, data: D)
    requires ev(cond)(data)
    ensures var alts := [Alternative(cond, f), Alternative(cond, g)]; First(ev, alts, data) == 0 && Pick(ev, alts, data) == 1
  {
    var alts := [Alternative(cond, f), Alternative(cond, g)];
    assert alts[0].cond == cond && alts[1].cond == cond && |alts| == 2;
    var p := First(ev, alts, data);
    assert p == 0;
  }

  /** Where an event for the named task goes; it crashes the sender if there is no such task. */
  function Goto<D>(s: Source<D>, name: string, data: D): NConfig<D> {
    var i := PlainIndex(s.plain, name);
    if ':' in name then NCrashed
    else if i < |s.plain| then At(name, data, s.plain[i].checkpoint)
    else if GroupIndex(s.groups, name) < |s.groups| then At(name, data, false)
    else NCrashed
  }

  /** One step: a plain task runs, or a group runs the alternative it picks, or a group waits.  A task
      that returns no target ends the process; when it is an alternative, onKill says what happens. */
  function NStep<D>(s: Source<D>, ev: Conditions<D>, onKill: NConfig<D>, c: NConfig<D>): (seq<Visit<D>>, NConfig<D>) {
    if !c.At? then ([], c)
    else
      var i := PlainIndex(s.plain, c.name);
      var g := GroupIndex(s.groups, c.name);
      if i < |s.plain| then
        ([Visit(PlainRef(i), c.data, c.checkpoint)],
         match s.plain[i].body(c.data) case Kill => NHalted case Send(name, d) => Goto(s, name, d))
      else if g < |s.groups| then
        var k := Pick(ev, s.groups[g].alts, c.data);
        if k == |s.groups[g].alts| then ([], c)
        else
          ([Visit(AltRef(g, k), c.data, false)],
           match s.groups[g].alts[k].body(c.data) case Kill => onKill case Send(name, d) => Goto(s, name, d))
      else ([], NCrashed)
  }

  /** The user functions run in k steps. */
  ghost function NTrace<D>(s: Source<D>, ev: Conditions<D>, onKill: NConfig<D>, c: NConfig<D>, k: nat): seq<Visit<D>>
    decreases k
  {
    if k == 0 then [] else var (v, d) := NStep(s, ev, onKill, c); v + NTrace(s, ev, onKill, d, k - 1)
  }

  /** Where k steps lead. */
  ghost function NEnd<D>(s: Source<D>, ev: Conditions<D>, onKill: NConfig<D>, c: NConfig<D>, k: nat): NConfig<D>
    decreases k
  {
    if k == 0 then c else NEnd(s, ev, onKill, NStep(s, ev, onKill, c).1, k - 1)
  }

  // ---- What a run of the source is ----

  /** The task named is the unconditional one registered first under that name, or, if there is none, the
      alternative a group of that name picks: it holds, and no other condition before its own does. */
  ghost predicate Named<D>(s: Source<D>, ev: Conditions<D>, name: string, w: Visit<D>) {
    match w.ref
    case PlainRef(i) => i < |s.plain| && s.plain[i].name == name && forall j :: 0 <= j < i ==> s.plain[j].name != name
    case AltRef(g, i) =>
      && g < |s.groups| && s.groups[g].name == name && (forall j :: 0 <= j < |s.plain| ==> s.plain[j].name != name)
      && Runs(ev, s.groups[g].alts, w.data, i)
  }

  /** Some alternative is the first to hold, and the i-th is the last with its condition string. */
  ghost predicate Runs<D>(ev: Conditions<D>, alts: seq<Alternative<D>>, data: D, i: nat) {
    && i < |alts|
    && (forall j :: i < j < |alts| ==> alts[j].cond != alts[i].cond)
    && exists f: nat :: f <= i && alts[f].cond == alts[i].cond && ev(alts[f].cond)(data) && forall j :: 0 <= j < f ==> !ev(alts[j].cond)(data)
  }

  lemma PickRuns<D>(ev: Conditions<D>, alts: seq<Alternative<D>>, data: D)
    requires Pick(ev, alts, data) < |alts|
    ensures Runs(ev, alts, data, Pick(ev, alts, data))
  {
    var f := First(ev, alts, data);
    hide First;
  }

  /** w is run on what v sent to the task named, with the flag that is registered for it. */
  ghost predicate Follows<D>(s: Source<D>, ev: Conditions<D>, v: Visit<D>, w: Visit<D>) {
    exists name :: Sends(s, v, name, w.data) && Named(s, ev, name, w) && Flagged(s, w)
  }

  ghost predicate EachFollows<D>(s: Source<D>, ev: Conditions<D>, vs: seq<Visit<D>>) {
    forall j :: 0 < j < |vs| ==> Follows(s, ev, vs[j - 1], vs[j])
  }

  ghost predicate Sends<D>(s: Source<D>, v: Visit<D>, name: string, data: D) {
    match v.ref
    case PlainRef(i) => i < |s.plain| && s.plain[i].body(v.data) == Send(name, data)
    case AltRef(g, i) => g < |s.groups| && i < |s.groups[g].alts| && s.groups[g].alts[i].body(v.data) == Send(name, data)
  }

  ghost predicate Flagged<D>(s: Source<D>, w: Visit<D>) {
    match w.ref
    case PlainRef(i) => i < |s.plain| && w.checkpoint == s.plain[i].checkpoint
    case AltRef(_, _) => !w.checkpoint
  }

  ghost predicate ConfigFlagged<D>(s: Source<D>, c: NConfig<D>) {
    c.At? ==> c.checkpoint == if PlainIndex(s.plain, c.name) < |s.plain| then s.plain[PlainIndex(s.plain, c.name)].checkpoint else false
  }

  lemma StepNamed<D>(s: Source<D>, ev: Conditions<D>, onKill: NConfig<D>, c: NConfig<D>)
    requires onKill == NHalted || onKill == NCrashed
    ensures var (vs, d) := NStep(s, ev, onKill, c);
      && |vs| <= 1
      && (vs != [] ==> c.At? && Named(s, ev, c.name, vs[0]) && vs[0].data == c.data && (ConfigFlagged(s, c) ==> Flagged(s, vs[0])))
      && (vs != [] && d.At? ==> Sends(s, vs[0], d.name, d.data) && ConfigFlagged(s, d))
      && (vs == [] && d.At? ==> d == c)
  {
    if c.At? {
      var i, g := PlainIndex(s.plain, c.name), GroupIndex(s.groups, c.name);
      if i == |s.plain| && g < |s.groups| && Pick(ev, s.groups[g].alts, c.data) < |s.groups[g].alts| {
        PickRuns(ev, s.groups[g].alts, c.data);
      }
      hide Pick, Runs, PlainIndex, GroupIndex;
    }
  }

  /** The first visit of a run is of the task the run is at. */
  lemma {:induction false} FirstNamed<D>(s: Source<D>, ev: Conditions<D>, onKill: NConfig<D>, c: NConfig<D>, k: nat)
    requires onKill == NHalted || onKill == NCrashed
    ensures var vs := NTrace(s, ev, onKill, c, k);
      vs != [] ==> c.At? && Named(s, ev, c.name, vs[0]) && vs[0].data == c.data && (ConfigFlagged(s, c) ==> Flagged(s, vs[0]))
    decreases k
  {
    if k > 0 {
      StepNamed(s, ev, onKill, c);
      var (v, d) := NStep(s, ev, onKill, c);
      FirstNamed(s, ev, onKill, d, k - 1);
      hide NStep, Named, Flagged, ConfigFlagged, Sends;
      assert NTrace(s, ev, onKill, c, k) == v + NTrace(s, ev, onKill, d, k - 1);
      if v == [] { assert v + NTrace(s, ev, onKill, d, k - 1) == NTrace(s, ev, onKill, d, k - 1); }
    }
  }

  lemma SecondFollows<D>(s: Source<D>, ev: Conditions<D>, onKill: NConfig<D>, c: NConfig<D>, k: nat)
    requires onKill == NHalted || onKill == NCrashed
    ensures var (v, d) := NStep(s, ev, onKill, c); var ws := NTrace(s, ev, onKill, d, k);
      |v| <= 1 && (v != [] && ws != [] ==> Follows(s, ev, v[0], ws[0]))
  {
    StepNamed(s, ev, onKill, c);
    var (v, d) := NStep(s, ev, onKill, c);
    FirstNamed(s, ev, onKill, d, k);
    hide NTrace, NStep, Named, Flagged, ConfigFlagged, Sends;
  }

  /** In a run of the source each function is run on what the one before sent, by the name it sent it to. */
  lemma {:induction false} VisitsFollow<D>(s: Source<D>, ev: Conditions<D>, onKill: NConfig<D>, c: NConfig<D>, k: nat)
    requires onKill == NHalted || onKill == NCrashed
    ensures EachFollows(s, ev, NTrace(s, ev, onKill, c, k))
    decreases k
  {
    hide Follows;
    if k > 0 {
      SecondFollows(s, ev, onKill, c, k - 1);
      var (v, d) := NStep(s, ev, onKill, c);
      VisitsFollow(s, ev, onKill, d, k - 1);
      var vs, ws := NTrace(s, ev, onKill, c, k), NTrace(s, ev, onKill, d, k - 1);
      assert vs == v + ws;
      hide NTrace, NStep, EachFollows;
      FollowsJoined(s, ev, v, ws);
    }
  }

  lemma FollowsJoined<D>(s: Source<D>, ev: Conditions<D>, v: seq<Visit<D>>, ws: seq<Visit<D>>)
    requires |v| <= 1 && (v != [] && ws != [] ==> Follows(s, ev, v[0], ws[0]))
    requires EachFollows(s, ev, ws)
    ensures EachFollows(s, ev, v + ws)
  {
    hide Follows;
    var vs := v + ws;
    forall j | 0 < j < |vs| ensures Follows(s, ev, vs[j - 1], vs[j]) {
      if v == [] {
        assert vs == ws;
      } else if j > 1 {
        assert vs[j] == ws[j - 1] && vs[j - 1] == ws[j - 2];
      }
    }
  }

  // ---- Id-based semantics of the compiled program ----

  datatype CConfig<D> = Running(id: nat, data: D, checkpoint: bool) | Halted | Crashed

  /** The wrapper around a user function rewrites the target's name to its id. */
  function Deliver<D>(p: Program, ckpt: map<string, bool>, name: string, data: D): CConfig<D> {
    if ':' in name || name !in p.ids then Crashed
    else Running(p.ids[name], data, if name in ckpt then ckpt[name] else false)
  }

  function FirstChoice<D>(ev: Conditions<D>, cs: seq<Choice>, data: D): (i: nat)
    ensures i <= |cs| && (i < |cs| ==> ev(cs[i].cond)(data))
  {
    if cs == [] then 0 else if ev(cs[0].cond)(data) then 0 else 1 + FirstChoice(ev, cs[1..], data)
  }

  /** task_to_checkpoint: only unconditional tasks have an entry. */
  function Checkpoints<D>(plain: seq<Plain<D>>, n: nat): map<string, bool>
    requires n <= |plain|
  {
    if n == 0 then map[] else Checkpoints(plain, n - 1)[plain[n - 1].name := plain[n - 1].checkpoint]
  }

  /** The callable of a user function, found in the source by its place. */
  function BodyOf<D>(s: Source<D>, ref: Ref): Result<D -> Reply<D>> {
    match ref
    case PlainRef(i) => if i < |s.plain| then Success(s.plain[i].body) else Failure
    case AltRef(g, i) =>
      if g < |s.groups| && i < |s.groups[g].alts| then Success(s.groups[g].alts[i].body) else Failure
  }

  /** One step: run the callable of the task an event is addressed to. */
  function CStep<D>(s: Source<D>, p: Program, ev: Conditions<D>, c: CConfig<D>): (seq<Visit<D>>, CConfig<D>) {
    if !c.Running? then ([], c)
    else if c.id !in p.tasks then ([], Crashed)
    else
      match p.tasks[c.id]
      case Dispatch(cs) =>
        var k := FirstChoice(ev, cs, c.data);
        if k == |cs| then ([], c) else ([], Running(cs[k].id, c.data, false))
      case User(ref) =>
        match BodyOf(s, ref)
        case Failure => ([], Crashed)
        case Success(body) =>
          ([Visit(ref, c.data, c.checkpoint)],
           match body(c.data)
           case Kill => if ref.PlainRef? then Halted else Crashed
           case Send(name, d) => Deliver(p, Checkpoints(s.plain, |s.plain|), name, d))
  }

  ghost function CTrace<D>(s: Source<D>, p: Program, ev: Conditions<D>, c: CConfig<D>, k: nat): seq<Visit<D>>
    decreases k
  {
    if k == 0 then [] else var (v, d) := CStep(s, p, ev, c); v + CTrace(s, p, ev, d, k - 1)
  }

  ghost function CEnd<D>(s: Source<D>, p: Program, ev: Conditions<D>, c: CConfig<D>, k: nat): CConfig<D>
    decreases k
  {
    if k == 0 then c else CEnd(s, p, ev, CStep(s, p, ev, c).1, k - 1)
  }

  // ---- The simulation ----

  /** An event for a name, and an event for the id the name compiled to. */
  ghost predicate Same<D>(s: Source<D>, p: Program, n: NConfig<D>, c: CConfig<D>) {
    match n
    case NHalted => c == Halted
    case NCrashed => c == Crashed
    case At(name, data, ck) =>
      && name in PlainNames(s) + GroupNames(s) && name in p.ids
      && c == Running(p.ids[name], data, ck)
  }

  ghost predicate IsCompiled<D>(s: Source<D>, p: Program) {
    && Distinct(s)
    && exists start :: Compiled(s, start) == Success(p)
  }

  lemma ProgramLaidOut<D>(s: Source<D>, p: Program)
    requires IsCompiled(s, p)
    ensures var b := Built(s); p.ids == b.ids && p.tasks == b.tasks && LaidOut(s, b, |s.groups|)
    ensures forall x :: ':' !in x ==> (x in p.ids <==> x in PlainNames(s) + GroupNames(s))
  {
    var start :| Compiled(s, start) == Success(p);
    GroupsLaid(s, |s.groups|);
    IdsAreDistinct(s, start);
  }

  lemma {:induction false} CheckpointOf<D>(s: Source<D>, n: nat, i: nat)
    requires Distinct(s) && i < n <= |s.plain|
    ensures s.plain[i].name in Checkpoints(s.plain, n) && Checkpoints(s.plain, n)[s.plain[i].name] == s.plain[i].checkpoint
  {
    if i < n - 1 { CheckpointOf(s, n - 1, i); }
  }

  lemma {:induction false} CheckpointNames<D>(s: Source<D>, n: nat, x: string)
    requires n <= |s.plain| && x in Checkpoints(s.plain, n)
    ensures x in PlainNames(s)
  {
    if s.plain[n - 1].name != x { CheckpointNames(s, n - 1, x); }
  }

  /** Which names can be targeted, and the checkpoint flag of each. */
  lemma TargetKinds<D>(s: Source<D>, name: string)
    requires Distinct(s)
    ensures var i, g, ck := PlainIndex(s.plain, name), GroupIndex(s.groups, name), Checkpoints(s.plain, |s.plain|);
      && (name in PlainNames(s) + GroupNames(s) <==> i < |s.plain| || g < |s.groups|)
      && (if i < |s.plain| then name in ck && ck[name] == s.plain[i].checkpoint else name !in ck)
  {
    var i := PlainIndex(s.plain, name);
    if i < |s.plain| {
      CheckpointOf(s, |s.plain|, i);
    } else if name in Checkpoints(s.plain, |s.plain|) {
      CheckpointNames(s, |s.plain|, name);
      assert false;
    }
    hide Checkpoints, PlainIndex, GroupIndex;
  }

  lemma CompiledTargets<D>(s: Source<D>, p: Program, name: string)
    requires IsCompiled(s, p)
    ensures Distinct(s) && (':' !in name ==> (name in p.ids <==> name in PlainNames(s) + GroupNames(s)))
  {
    ProgramLaidOut(s, p);
    hide Distinct, PlainNames, GroupNames, LaidOut, Built;
  }

  lemma DeliverSame<D>(s: Source<D>, p: Program, name: string, data: D)
    requires IsCompiled(s, p)
    ensures Same(s, p, Goto(s, name, data), Deliver(p, Checkpoints(s.plain, |s.plain|), name, data))
  {
    hide IsCompiled, Distinct, Checkpoints, PlainIndex, GroupIndex, PlainNames, GroupNames, Registered;
    CompiledTargets(s, p, name);
    TargetKinds(s, name);
  }

  lemma FirstChoiceCons<D>(ev: Conditions<D>, x: Choice, rest: seq<Choice>, data: D)
    ensures FirstChoice(ev, [x] + rest, data) == if ev(x.cond)(data) then 0 else 1 + FirstChoice(ev, rest, data)
  {
    assert ([x] + rest)[1..] == rest;
  }

  lemma AddChoiceCons(x: Choice, rest: seq<Choice>, c: Choice)
    ensures AddChoice([x] + rest, c) == if x.cond == c.cond then [c] + rest else [x] + AddChoice(rest, c)
  {
    assert ([x] + rest)[1..] == rest;
  }

  /** What adding choice c to cs does to the first choice that holds. */
  ghost predicate Added<D>(ev: Conditions<D>, cs: seq<Choice>, c: Choice, r: seq<Choice>, data: D) {
    var k, j := FirstChoice(ev, cs, data), FirstChoice(ev, r, data);
    if k < |cs| then j == k < |r| && r[k].cond == cs[k].cond && r[k].id == (if cs[k].cond == c.cond then c.id else cs[k].id)
    else if ev(c.cond)(data) then j < |r| && r[j] == c
    else j == |r|
  }

  lemma AddedToNone<D>(ev: Conditions<D>, c: Choice, data: D)
    ensures Added(ev, [], c, AddChoice([], c), data)
  {
    FirstChoiceCons(ev, c, [], data);
    assert [c] + [] == [c];
  }

  lemma AddedHere<D>(ev: Conditions<D>, x: Choice, rest: seq<Choice>, c: Choice, data: D)
    requires x.cond == c.cond
    ensures Added(ev, [x] + rest, c, [c] + rest, data)
  {
    FirstChoiceCons(ev, x, rest, data);
    FirstChoiceCons(ev, c, rest, data);
    hide FirstChoice;
  }

  lemma AddedLater<D>(ev: Conditions<D>, x: Choice, rest: seq<Choice>, c: Choice, r: seq<Choice>, data: D)
    requires x.cond != c.cond && Added(ev, rest, c, r, data)
    ensures Added(ev, [x] + rest, c, [x] + r, data)
  {
    FirstChoiceCons(ev, x, rest, data);
    FirstChoiceCons(ev, x, r, data);
    hide FirstChoice;
  }

  /** The condition dictionary of a group: its entries are the alternatives Pick can choose. */
  lemma {:induction false} AddChoiceFirst<D>(ev: Conditions<D>, cs: seq<Choice>, c: Choice, data: D)
    ensures Added(ev, cs, c, AddChoice(cs, c), data)
  {
    hide *;
    if cs == [] {
      AddedToNone(ev, c, data);
    } else {
      assert cs == [cs[0]] + cs[1..];
      AddChoiceCons(cs[0], cs[1..], c);
      if cs[0].cond == c.cond {
        AddedHere(ev, cs[0], cs[1..], c, data);
      } else {
        AddChoiceFirst(ev, cs[1..], c, data);
        AddedLater(ev, cs[0], cs[1..], c, AddChoice(cs[1..], c), data);
      }
    }
  }

  /** The dictionary of the first n alternatives chooses as the source does among them. */
  ghost predicate Chosen<D>(ev: Conditions<D>, alts: seq<Alternative<D>>, base: nat, n: nat, cs: seq<Choice>, data: D)
    requires n <= |alts|
  {
    var f, k := First(ev, alts, data), FirstChoice(ev, cs, data);
    if f >= n then k == |cs|
    else k < |cs| && cs[k] == Choice(alts[f].cond, base + LastWith(alts, alts[f].cond, n))
  }

  lemma ChosenStep<D>(ev: Conditions<D>, alts: seq<Alternative<D>>, base: nat, n: nat, cs: seq<Choice>, r: seq<Choice>, data: D)
    requires 0 < n <= |alts| && Chosen(ev, alts, base, n - 1, cs, data)
    requires Added(ev, cs, Choice(alts[n - 1].cond, base + n - 1), r, data)
    ensures Chosen(ev, alts, base, n, r, data)
  {
    hide First, FirstChoice;
  }

  lemma ChosenFromNone<D>(ev: Conditions<D>, alts: seq<Alternative<D>>, base: nat, data: D)
    ensures Chosen(ev, alts, base, 0, Choices(alts, base, 0), data)
  {
  }

  lemma ChoicesStep<D>(alts: seq<Alternative<D>>, base: nat, n: nat)
    requires 0 < n <= |alts|
    ensures Choices(alts, base, n) == AddChoice(Choices(alts, base, n - 1), Choice(alts[n - 1].cond, base + n - 1))
  {
  }

  /** The condition dictionary chooses the alternative that Pick picks. */
  lemma {:induction false} ChoicesPick<D>(ev: Conditions<D>, alts: seq<Alternative<D>>, base: nat, n: nat, data: D)
    requires n <= |alts|
    ensures Chosen(ev, alts, base, n, Choices(alts, base, n), data)
  {
    hide *;
    if n == 0 {
      ChosenFromNone(ev, alts, base, data);
    } else {
      var cs := Choices(alts, base, n - 1);
      var c := Choice(alts[n - 1].cond, base + n - 1);
      ChoicesPick(ev, alts, base, n - 1, data);
      AddChoiceFirst(ev, cs, c, data);
      ChoicesStep(alts, base, n);
      ChosenStep(ev, alts, base, n, cs, AddChoice(cs, c), data);
    }
  }

  // ---- One source step ----

  /** A plain task: one step on either side, the same visit. */
  lemma PlainStep<D>(s: Source<D>, p: Program, ev: Conditions<D>, n: NConfig<D>, c: CConfig<D>)
    requires IsCompiled(s, p) && Same(s, p, n, c) && n.At? && PlainIndex(s.plain, n.name) < |s.plain|
    ensures CStep(s, p, ev, c).0 == NStep(s, ev, NCrashed, n).0
    ensures Same(s, p, NStep(s, ev, NCrashed, n).1, CStep(s, p, ev, c).1)
  {
    var i := PlainIndex(s.plain, n.name);
    ProgramLaidOut(s, p);
    assert p.tasks[c.id] == User(PlainRef(i));
    match s.plain[i].body(n.data)
    case Kill =>
    case Send(name, d) => DeliverSame(s, p, name, d);
  }

  /** The dispatcher of a group stands behind its alternatives. */
  lemma DispatcherAt<D>(s: Source<D>, p: Program, g: nat)
    requires IsCompiled(s, p) && g < |s.groups|
    ensures var alts := s.groups[g].alts; var base := Base(s, g);
      && s.groups[g].name in p.ids && p.ids[s.groups[g].name] == base + |alts|
      && base + |alts| in p.tasks && p.tasks[base + |alts|] == Dispatch(Choices(alts, base, |alts|))
      && (forall k :: 0 <= k < |alts| ==> TaskAt(p.tasks, base + k, User(AltRef(g, k))))
  {
    hide IsCompiled, Laid, Used, Distinct, Choices, Base, Built, AltName, AltsAt;
    ProgramLaidOut(s, p);
    LaidOutGroup(s, Built(s), g);
    forall k | 0 <= k < |s.groups[g].alts| ensures TaskAt(p.tasks, Base(s, g) + k, User(AltRef(g, k))) {
      AltTask(Built(s), Base(s, g), s.groups[g].name, g, |s.groups[g].alts|, k);
    }
  }

  predicate TaskAt(tasks: map<nat, Code>, id: nat, code: Code) {
    id in tasks && tasks[id] == code
  }

  lemma LaidOutGroup<D>(s: Source<D>, b: Build, g: nat)
    requires g < |s.groups| && LaidOut(s, b, |s.groups|)
    ensures GroupAt(s, b, g, Base(s, g))
  {
  }

  lemma AltTask(b: Build, base: nat, name: string, g: nat, n: nat, k: nat)
    requires AltsAt(b, base, name, g, n) && k < n
    ensures TaskAt(b.tasks, base + k, User(AltRef(g, k)))
  {
    assert AltAt(b, base + k, AltName(name, k), g, k);
  }

  /** A dispatcher waits when its group does, and otherwise hands the data to the picked alternative. */
  lemma DispatchStep<D>(s: Source<D>, p: Program, ev: Conditions<D>, g: nat, data: D, ck: bool)
    requires IsCompiled(s, p) && g < |s.groups|
    ensures var alts := s.groups[g].alts; var base := Base(s, g); var k := Pick(ev, alts, data);
      CStep(s, p, ev, Running(base + |alts|, data, ck))
        == ([], if k == |alts| then Running(base + |alts|, data, ck) else Running(base + k, data, false))
  {
    hide IsCompiled, Choices, Base, FirstChoice, First, LastWith;
    var alts := s.groups[g].alts;
    DispatcherAt(s, p, g);
    ChoicesPick(ev, alts, Base(s, g), |alts|, data);
  }

  lemma AltStep<D>(s: Source<D>, p: Program, ev: Conditions<D>, g: nat, k: nat, data: D)
    requires IsCompiled(s, p) && g < |s.groups| && k < |s.groups[g].alts|
    ensures var r := s.groups[g].alts[k].body(data);
      CStep(s, p, ev, Running(Base(s, g) + k, data, false))
        == ([Visit(AltRef(g, k), data, false)],
            match r case Kill => Crashed case Send(name, d) => Deliver(p, Checkpoints(s.plain, |s.plain|), name, d))
  {
    hide IsCompiled, Choices, Base, Deliver, Checkpoints;
    DispatcherAt(s, p, g);
    assert TaskAt(p.tasks, Base(s, g) + k, User(AltRef(g, k)));
  }

  /** How one source step is matched: not at all, by one compiled step, or by two. */
  ghost predicate Waits<D>(s: Source<D>, p: Program, ev: Conditions<D>, n: NConfig<D>, c: CConfig<D>) {
    NStep(s, ev, NCrashed, n) == ([], n) && CStep(s, p, ev, c) == ([], c)
  }

  ghost predicate Lockstep<D>(s: Source<D>, p: Program, ev: Conditions<D>, n: NConfig<D>, c: CConfig<D>) {
    var (v, m) := NStep(s, ev, NCrashed, n); var (w, d) := CStep(s, p, ev, c);
    w == v && Same(s, p, m, d)
  }

  ghost predicate Dispatched<D>(s: Source<D>, p: Program, ev: Conditions<D>, n: NConfig<D>, c: CConfig<D>) {
    var (v, m) := NStep(s, ev, NCrashed, n); var (w, d) := CStep(s, p, ev, c);
    w == [] && CStep(s, p, ev, d).0 == v && Same(s, p, m, CStep(s, p, ev, d).1)
  }

  /** A group waits exactly when none of its conditions holds. */
  lemma PickNothing<D>(ev: Conditions<D>, alts: seq<Alternative<D>>, data: D)
    ensures Pick(ev, alts, data) == |alts| <==> forall i :: 0 <= i < |alts| ==> !ev(alts[i].cond)(data)
  {
  }

  /** A group's step: both sides wait when no condition holds, and otherwise the compiled run takes two
      steps, the dispatcher's and the alternative's. */
  lemma GroupStep<D>(s: Source<D>, p: Program, ev: Conditions<D>, n: NConfig<D>, c: CConfig<D>, g: nat)
    requires IsCompiled(s, p) && Same(s, p, n, c) && n.At? && PlainIndex(s.plain, n.name) == |s.plain|
    requires g == GroupIndex(s.groups, n.name) < |s.groups|
    ensures if forall i :: 0 <= i < |s.groups[g].alts| ==> !ev(s.groups[g].alts[i].cond)(n.data)
      then Waits(s, p, ev, n, c) else Dispatched(s, p, ev, n, c)
  {
    PickNothing(ev, s.groups[g].alts, n.data);
    hide *;
    PickedStep(s, p, ev, n, c, g);
  }

  lemma PickedStep<D>(s: Source<D>, p: Program, ev: Conditions<D>, n: NConfig<D>, c: CConfig<D>, g: nat)
    requires IsCompiled(s, p) && Same(s, p, n, c) && n.At? && PlainIndex(s.plain, n.name) == |s.plain|
    requires g == GroupIndex(s.groups, n.name) < |s.groups|
    ensures if Pick(ev, s.groups[g].alts, n.data) == |s.groups[g].alts| then Waits(s, p, ev, n, c) else Dispatched(s, p, ev, n, c)
  {
    hide CStep, Pick, Choices, IsCompiled, Base;
    DispatcherAt(s, p, g);
    DispatchStep(s, p, ev, g, n.data, n.checkpoint);
    var k := Pick(ev, s.groups[g].alts, n.data);
    if k < |s.groups[g].alts| {
      AltStep(s, p, ev, g, k, n.data);
      match s.groups[g].alts[k].body(n.data)
      case Kill =>
      case Send(name, d) => DeliverSame(s, p, name, d);
    }
  }

  lemma GroupOfName<D>(s: Source<D>, n: string)
    requires n in PlainNames(s) + GroupNames(s) && PlainIndex(s.plain, n) == |s.plain|
    ensures GroupIndex(s.groups, n) < |s.groups|
  {
  }

  lemma StepMatches<D>(s: Source<D>, p: Program, ev: Conditions<D>, n: NConfig<D>, c: CConfig<D>)
    requires IsCompiled(s, p) && Same(s, p, n, c)
    ensures Waits(s, p, ev, n, c) || Lockstep(s, p, ev, n, c) || Dispatched(s, p, ev, n, c)
  {
    if n.At? {
      hide IsCompiled, CStep, NStep;
      if PlainIndex(s.plain, n.name) < |s.plain| {
        PlainStep(s, p, ev, n, c);
      } else {
        GroupOfName(s, n.name);
        GroupStep(s, p, ev, n, c, GroupIndex(s.groups, n.name));
      }
    }
  }

  // ---- Whole runs ----

  lemma NRunStep<D>(s: Source<D>, ev: Conditions<D>, onKill: NConfig<D>, n: NConfig<D>, k: nat)
    ensures NTrace(s, ev, onKill, n, 0) == [] && NEnd(s, ev, onKill, n, 0) == n
    ensures k > 0 ==> var (v, m) := NStep(s, ev, onKill, n);
      NTrace(s, ev, onKill, n, k) == v + NTrace(s, ev, onKill, m, k - 1) && NEnd(s, ev, onKill, n, k) == NEnd(s, ev, onKill, m, k - 1)
  {
  }

  lemma CRunStep<D>(s: Source<D>, p: Program, ev: Conditions<D>, c: CConfig<D>, k: nat)
    ensures CTrace(s, p, ev, c, 0) == [] && CEnd(s, p, ev, c, 0) == c
    ensures k > 0 ==> var (w, d) := CStep(s, p, ev, c);
      CTrace(s, p, ev, c, k) == w + CTrace(s, p, ev, d, k - 1) && CEnd(s, p, ev, c, k) == CEnd(s, p, ev, d, k - 1)
  {
  }

  /** The source run n of k steps and the compiled run c of m steps visit the same and end the same. */
  ghost predicate Matched<D>(s: Source<D>, p: Program, ev: Conditions<D>, n: NConfig<D>, k: nat, c: CConfig<D>, m: nat) {
    && CTrace(s, p, ev, c, m) == NTrace(s, ev, NCrashed, n, k)
    && Same(s, p, NEnd(s, ev, NCrashed, n, k), CEnd(s, p, ev, c, m))
  }

  /** Between the two compiled steps of a group: the dispatcher has chosen, the alternative runs next. */
  ghost predicate Between<D>(s: Source<D>, p: Program, ev: Conditions<D>, n: NConfig<D>, d: CConfig<D>) {
    && n.At? && d.Running? && CStep(s, p, ev, d).0 == NStep(s, ev, NCrashed, n).0
    && Same(s, p, NStep(s, ev, NCrashed, n).1, CStep(s, p, ev, d).1)
  }

  lemma MatchedLockstep<D>(s: Source<D>, p: Program, ev: Conditions<D>, n: NConfig<D>, k: nat, c: CConfig<D>, m: nat)
    requires Lockstep(s, p, ev, n, c) && Matched(s, p, ev, NStep(s, ev, NCrashed, n).1, k, CStep(s, p, ev, c).1, m)
    ensures Matched(s, p, ev, n, k + 1, c, m + 1)
  {
    hide Same, NStep, CStep, NTrace, CTrace, NEnd, CEnd;
    NRunStep(s, ev, NCrashed, n, k + 1);
    CRunStep(s, p, ev, c, m + 1);
  }

  lemma MatchedDispatched<D>(s: Source<D>, p: Program, ev: Conditions<D>, n: NConfig<D>, k: nat, c: CConfig<D>, m: nat)
    requires Dispatched(s, p, ev, n, c)
    requires var d := CStep(s, p, ev, c).1; Matched(s, p, ev, NStep(s, ev, NCrashed, n).1, k, CStep(s, p, ev, d).1, m)
    ensures Matched(s, p, ev, n, k + 1, c, m + 2)
  {
    hide Same, NStep, CStep, NTrace, CTrace, NEnd, CEnd;
    NRunStep(s, ev, NCrashed, n, k + 1);
    CRunStep(s, p, ev, c, m + 2);
    CRunStep(s, p, ev, CStep(s, p, ev, c).1, m + 1);
  }

  lemma MatchedWaiting<D>(s: Source<D>, p: Program, ev: Conditions<D>, n: NConfig<D>, k: nat, c: CConfig<D>, m: nat)
    requires Waits(s, p, ev, n, c) && Matched(s, p, ev, n, k, c, m)
    ensures Matched(s, p, ev, n, k + 1, c, m)
  {
    hide Same, NStep, CStep, NTrace, CTrace, NEnd, CEnd;
    NRunStep(s, ev, NCrashed, n, k + 1);
  }

  lemma MatchedStart<D>(s: Source<D>, p: Program, ev: Conditions<D>, n: NConfig<D>, c: CConfig<D>)
    requires Same(s, p, n, c)
    ensures Matched(s, p, ev, n, 0, c, 0) && Followed(s, p, ev, n, 0, c, 0)
  {
    hide Same;
  }

  /** Every run of the source is matched by a compiled run of at most twice its length, which visits
      the same and halts, crashes or goes on where the source run does. */
  lemma {:induction false} SourceRunsCompile<D>(s: Source<D>, p: Program, ev: Conditions<D>, n: NConfig<D>, c: CConfig<D>, k: nat)
    returns (m: nat)
    requires IsCompiled(s, p) && Same(s, p, n, c)
    ensures m <= 2 * k && Matched(s, p, ev, n, k, c, m)
    decreases k
  {
    hide Same, IsCompiled, NStep, CStep, Matched, Followed;
    if k == 0 {
      MatchedStart(s, p, ev, n, c);
      return 0;
    }
    StepMatches(s, p, ev, n, c);
    var n', d := NStep(s, ev, NCrashed, n).1, CStep(s, p, ev, c).1;
    if Waits(s, p, ev, n, c) {
      m := SourceRunsCompile(s, p, ev, n, c, k - 1);
      MatchedWaiting(s, p, ev, n, k - 1, c, m);
    } else if Lockstep(s, p, ev, n, c) {
      m := SourceRunsCompile(s, p, ev, n', d, k - 1);
      MatchedLockstep(s, p, ev, n, k - 1, c, m);
      m := m + 1;
    } else {
      m := SourceRunsCompile(s, p, ev, n', CStep(s, p, ev, d).1, k - 1);
      MatchedDispatched(s, p, ev, n, k - 1, c, m);
      m := m + 2;
    }
  }

  /** The compiled run visits what the source run does, and ends where that does or between the two
      steps of a group. */
  ghost predicate Followed<D>(s: Source<D>, p: Program, ev: Conditions<D>, n: NConfig<D>, k: nat, c: CConfig<D>, m: nat) {
    var a, b := NEnd(s, ev, NCrashed, n, k), CEnd(s, p, ev, c, m);
    CTrace(s, p, ev, c, m) == NTrace(s, ev, NCrashed, n, k) && (Same(s, p, a, b) || Between(s, p, ev, a, b))
  }

  lemma FollowedWaiting<D>(s: Source<D>, p: Program, ev: Conditions<D>, n: NConfig<D>, k: nat, c: CConfig<D>, m: nat)
    requires Waits(s, p, ev, n, c) && Followed(s, p, ev, n, k, c, m)
    ensures Followed(s, p, ev, n, k, c, m + 1)
  {
    hide Same, Between, NStep, CStep, NTrace, CTrace, NEnd, CEnd;
    CRunStep(s, p, ev, c, m + 1);
  }

  lemma FollowedLockstep<D>(s: Source<D>, p: Program, ev: Conditions<D>, n: NConfig<D>, k: nat, c: CConfig<D>, m: nat)
    requires Lockstep(s, p, ev, n, c) && Followed(s, p, ev, NStep(s, ev, NCrashed, n).1, k, CStep(s, p, ev, c).1, m)
    ensures Followed(s, p, ev, n, k + 1, c, m + 1)
  {
    hide Same, Between, NStep, CStep, NTrace, CTrace, NEnd, CEnd;
    NRunStep(s, ev, NCrashed, n, k + 1);
    CRunStep(s, p, ev, c, m + 1);
  }

  lemma FollowedDispatched<D>(s: Source<D>, p: Program, ev: Conditions<D>, n: NConfig<D>, k: nat, c: CConfig<D>, m: nat)
    requires Dispatched(s, p, ev, n, c)
    requires var d := CStep(s, p, ev, c).1; Followed(s, p, ev, NStep(s, ev, NCrashed, n).1, k, CStep(s, p, ev, d).1, m)
    ensures Followed(s, p, ev, n, k + 1, c, m + 2)
  {
    hide Same, Between, NStep, CStep, NTrace, CTrace, NEnd, CEnd;
    NRunStep(s, ev, NCrashed, n, k + 1);
    CRunStep(s, p, ev, c, m + 2);
    CRunStep(s, p, ev, CStep(s, p, ev, c).1, m + 1);
  }

  /** After the dispatcher's step alone the compiled run is between the two. */
  lemma FollowedHalfway<D>(s: Source<D>, p: Program, ev: Conditions<D>, n: NConfig<D>, c: CConfig<D>)
    requires Dispatched(s, p, ev, n, c) && n.At? && CStep(s, p, ev, c).1.Running?
    ensures Followed(s, p, ev, n, 0, c, 1)
  {
    hide Same, NStep, CStep, NTrace, CTrace, NEnd, CEnd;
    NRunStep(s, ev, NCrashed, n, 0);
    CRunStep(s, p, ev, c, 1);
    CRunStep(s, p, ev, CStep(s, p, ev, c).1, 0);
  }

  /** Every compiled run follows a source run of at most its length. */
  lemma {:induction false} CompiledRunsHaveSources<D>(s: Source<D>, p: Program, ev: Conditions<D>, n: NConfig<D>, c: CConfig<D>, m: nat)
    returns (k: nat)
    requires IsCompiled(s, p) && Same(s, p, n, c)
    ensures k <= m && Followed(s, p, ev, n, k, c, m)
    decreases m
  {
    hide Same, IsCompiled, NStep, CStep, Followed, Matched;
    if m == 0 {
      MatchedStart(s, p, ev, n, c);
      return 0;
    }
    StepMatches(s, p, ev, n, c);
    var n', d := NStep(s, ev, NCrashed, n).1, CStep(s, p, ev, c).1;
    if Waits(s, p, ev, n, c) {
      k := CompiledRunsHaveSources(s, p, ev, n, c, m - 1);
      FollowedWaiting(s, p, ev, n, k, c, m - 1);
    } else if Lockstep(s, p, ev, n, c) {
      k := CompiledRunsHaveSources(s, p, ev, n', d, m - 1);
      FollowedLockstep(s, p, ev, n, k, c, m - 1);
      k := k + 1;
    } else if m == 1 {
      k := 0;
      DispatchedGoesOn(s, p, ev, n, c);
      FollowedHalfway(s, p, ev, n, c);
    } else {
      k := CompiledRunsHaveSources(s, p, ev, n', CStep(s, p, ev, d).1, m - 2);
      FollowedDispatched(s, p, ev, n, k, c, m - 2);
      k := k + 1;
    }
  }

  /** A dispatcher chooses for a group only, and its choice runs next. */
  lemma DispatchedGoesOn<D>(s: Source<D>, p: Program, ev: Conditions<D>, n: NConfig<D>, c: CConfig<D>)
    requires Same(s, p, n, c) && Dispatched(s, p, ev, n, c) && !Lockstep(s, p, ev, n, c)
    ensures n.At? && CStep(s, p, ev, c).1.Running?
  {
    hide Goto, Pick, FirstChoice, Deliver;
  }

  /** The start matches: it is a checkpoint event for the start task on either side. */
  lemma StartMatches<D>(s: Source<D>, start: string, data: D)
    requires Distinct(s) && ':' !in start && Compiled(s, start).Success?
    ensures var p := Compiled(s, start).value;
      IsCompiled(s, p) && Same(s, p, At(start, data, true), Running(p.start, data, true))
  {
    IdsAreDistinct(s, start);
  }

  // ---- Alternatives that end the process ----

  /** The function run is an alternative and returns no target. */
  ghost predicate AltKills<D>(s: Source<D>, v: Visit<D>) {
    v.ref.AltRef? && BodyOf(s, v.ref).Success? && BodyOf(s, v.ref).value(v.data) == Kill
  }

  ghost predicate SomeAltKills<D>(s: Source<D>, vs: seq<Visit<D>>) {
    exists v :: v in vs && AltKills(s, v)
  }

  lemma SomeAltKillsConcat<D>(s: Source<D>, v: seq<Visit<D>>, w: seq<Visit<D>>)
    ensures SomeAltKills(s, v + w) <==> SomeAltKills(s, v) || SomeAltKills(s, w)
  {
    forall x ensures x in v + w <==> x in v || x in w {}
    hide AltKills;
  }

  /** One step of the source: an alternative that kills ends it as asked, any other step does not depend on that. */
  lemma KillStep<D>(s: Source<D>, ev: Conditions<D>, n: NConfig<D>)
    ensures NStep(s, ev, NHalted, n).0 == NStep(s, ev, NCrashed, n).0
    ensures SomeAltKills(s, NStep(s, ev, NHalted, n).0) ==> NStep(s, ev, NHalted, n).1 == NHalted
    ensures !SomeAltKills(s, NStep(s, ev, NHalted, n).0) ==> NStep(s, ev, NHalted, n).1 == NStep(s, ev, NCrashed, n).1
  {
    hide Pick, Goto;
    var vs := NStep(s, ev, NHalted, n).0;
    if vs != [] { assert vs == [vs[0]] && vs[0] in vs; }
  }

  lemma KillStepCompiled<D>(s: Source<D>, p: Program, ev: Conditions<D>, c: CConfig<D>)
    ensures SomeAltKills(s, CStep(s, p, ev, c).0) ==> CStep(s, p, ev, c).1 == Crashed
    ensures !c.Running? ==> CStep(s, p, ev, c) == ([], c)
  {
    hide FirstChoice, Deliver;
  }

  lemma {:induction false} NStays<D>(s: Source<D>, ev: Conditions<D>, onKill: NConfig<D>, k: nat)
    ensures NEnd(s, ev, onKill, NHalted, k) == NHalted
    decreases k
  {
    if k > 0 { NStays(s, ev, onKill, k - 1); }
  }

  lemma {:induction false} CStays<D>(s: Source<D>, p: Program, ev: Conditions<D>, k: nat)
    ensures CEnd(s, p, ev, Crashed, k) == Crashed
    decreases k
  {
    if k > 0 { CStays(s, p, ev, k - 1); }
  }

  /** A source run whose alternatives may end it: it halts once one does, and until then is the run in
      which that would be a crash. */
  lemma {:induction false} KilledRun<D>(s: Source<D>, ev: Conditions<D>, n: NConfig<D>, k: nat)
    ensures var vs := NTrace(s, ev, NHalted, n, k);
      if SomeAltKills(s, vs) then NEnd(s, ev, NHalted, n, k) == NHalted
      else vs == NTrace(s, ev, NCrashed, n, k) && NEnd(s, ev, NHalted, n, k) == NEnd(s, ev, NCrashed, n, k)
    decreases k
  {
    hide NStep, AltKills, NTrace, NEnd;
    NRunStep(s, ev, NHalted, n, k);
    NRunStep(s, ev, NCrashed, n, k);
    if k > 0 {
      KillStep(s, ev, n);
      var (v, m) := NStep(s, ev, NHalted, n);
      SomeAltKillsConcat(s, v, NTrace(s, ev, NHalted, m, k - 1));
      hide SomeAltKills;
      if SomeAltKills(s, v) { NStays(s, ev, NHalted, k - 1); } else { KilledRun(s, ev, m, k - 1); }
    }
  }

  /** A compiled run crashes once an alternative returns no target. */
  lemma {:induction false} KilledCompiledRun<D>(s: Source<D>, p: Program, ev: Conditions<D>, c: CConfig<D>, m: nat)
    requires SomeAltKills(s, CTrace(s, p, ev, c, m))
    ensures CEnd(s, p, ev, c, m) == Crashed
    decreases m
  {
    hide CStep, AltKills, CTrace, CEnd;
    CRunStep(s, p, ev, c, m);
    if m > 0 {
      KillStepCompiled(s, p, ev, c);
      var (w, d) := CStep(s, p, ev, c);
      SomeAltKillsConcat(s, w, CTrace(s, p, ev, d, m - 1));
      hide SomeAltKills;
      if SomeAltKills(s, w) { CStays(s, p, ev, m - 1); } else { KilledCompiledRun(s, p, ev, d, m - 1); }
    }
  }

  /** Some compiled run visits what the source visits in k steps and ends the same, where a function
      that returns no target, alternative or not, ends the process. */
  ghost predicate Agrees<D>(s: Source<D>, p: Program, ev: Conditions<D>, n: NConfig<D>, k: nat, c: CConfig<D>) {
    exists m: nat :: CTrace(s, p, ev, c, m) == NTrace(s, ev, NHalted, n, k) && Same(s, p, NEnd(s, ev, NHalted, n, k), CEnd(s, p, ev, c, m))
  }

  /** Compiled and source runs agree exactly as long as no alternative run so far returns no target. */
  lemma AgreesUntilAltKills<D>(s: Source<D>, p: Program, ev: Conditions<D>, n: NConfig<D>, k: nat, c: CConfig<D>)
    requires IsCompiled(s, p) && Same(s, p, n, c)
    ensures Agrees(s, p, ev, n, k, c) <==> !SomeAltKills(s, NTrace(s, ev, NHalted, n, k))
  {
    hide IsCompiled, NTrace, CTrace, NEnd, CEnd, SomeAltKills;
    KilledRun(s, ev, n, k);
    if SomeAltKills(s, NTrace(s, ev, NHalted, n, k)) {
      forall m: nat | CTrace(s, p, ev, c, m) == NTrace(s, ev, NHalted, n, k) ensures CEnd(s, p, ev, c, m) == Crashed {
        KilledCompiledRun(s, p, ev, c, m);
      }
    } else {
      var m := SourceRunsCompile(s, p, ev, n, c, k);
    }
  }

  /** A program whose only function is an alternative that ends the process. */
  const ENDING: Source<int> := Source([], [Group("end", [Alternative("true", (d: int) => Kill)])])
  const HOLDS: Conditions<int> := (cond: string) => (d: int) => true

  /** Its source run halts in one step, and no compiled run agrees with it. */
  lemma EndingCrashes(data: int)
    ensures Distinct(ENDING) && Compiled(ENDING, "end").Success?
    ensures var p := Compiled(ENDING, "end").value; var n := At("end", data, true);
      NEnd(ENDING, HOLDS, NHalted, n, 1) == NHalted && !Agrees(ENDING, p, HOLDS, n, 1, Running(p.start, data, true))
  {
    EndingCompiles();
    var p := Compiled(ENDING, "end").value;
    var n := At("end", data, true);
    StartMatches(ENDING, "end", data);
    EndingHalts(data);
    AgreesUntilAltKills(ENDING, p, HOLDS, n, 1, Running(p.start, data, true));
  }

  lemma EndingCompiles()
    ensures Distinct(ENDING) && Compiled(ENDING, "end").Success?
  {
    EndingBuilt();
    hide Built;
  }

  lemma EndingBuilt()
    ensures Built(ENDING).next == 2 && "end" in Built(ENDING).ids
  {
    hide Choices, PlainTasks, PlainIds;
    var b, group := PlainBuild(ENDING), ENDING.groups[0];
    EndingPlain();
    AltsCount(b, group, 0, 1);
    hide PlainBuild, WithAlts;
    assert WithGroups(b, ENDING.groups, 0) == b;
  }

  lemma EndingPlain()
    ensures PlainBuild(ENDING).next == 0
  {
    assert PlainIds(ENDING.plain, 0) == map[];
    hide PlainTasks;
  }

  lemma EndingHalts(data: int)
    ensures var n := At("end", data, true);
      NEnd(ENDING, HOLDS, NHalted, n, 1) == NHalted && SomeAltKills(ENDING, NTrace(ENDING, HOLDS, NHalted, n, 1))
  {
    var n := At("end", data, true);
    assert GroupIndex(ENDING.groups, "end") == 0 && PlainIndex(ENDING.plain, "end") == 0;
    var alts := ENDING.groups[0].alts;
    assert First(HOLDS, alts, data) == 0 && LastWith(alts, "true", 1) == 0;
    NRunStep(ENDING, HOLDS, NHalted, n, 1);
    NRunStep(ENDING, HOLDS, NHalted, NHalted, 0);
    var v := Visit(AltRef(0, 0), data, false);
    assert NStep(ENDING, HOLDS, NHalted, n) == ([v], NHalted);
    assert [v] + [] == [v] && v in [v] && AltKills(ENDING, v);
  }
}
