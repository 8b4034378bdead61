/**
 * The task compiler (src/core/star_components.py).  Programs register functions under names, some
 * of them as alternatives guarded by conditions; compilation replaces names by two-byte task ids
 * and adds one dispatcher task for each group of alternatives.
 */
module Compiler {
  import opened Wrappers

  /** What a user function returns: an event for a named task, or an event without a target. */
  datatype Reply<D> = Send(name: string, data: D) | Kill

  datatype Plain<!D> = Plain(name: string, body: D -> Reply<D>, checkpoint: bool)
  datatype Alternative<!D> = Alternative(cond: string, body: D -> Reply<D>)
  datatype Group<!D> = Group(name: string, alts: seq<Alternative<D>>)

  /** The registered functions, in registration order. */
  datatype Source<!D> = Source(plain: seq<Plain<D>>, groups: seq<Group<D>>)

  /** A user function, by its place in the source. */
  datatype Ref = PlainRef(i: nat) | AltRef(g: nat, i: nat)

  datatype Choice = Choice(cond: string, id: nat)

  /** The callable of a compiled task: a user function, or the dispatcher of a group. */
  datatype Code = User(ref: Ref) | Dispatch(choices: seq<Choice>)

  /** Task names to ids, ids to callables, and the number of the next conditional task. */
  datatype Build = Build(ids: map<string, nat>, tasks: map<nat, Code>, next: nat)

  datatype Program = Program(ids: map<string, nat>, tasks: map<nat, Code>, start: nat)

  const MAX_IDS: nat := 65536

  // ---- Registration ----

  /** The index of the group of a name, or the number of groups. */
  function GroupIndex<D>(groups: seq<Group<D>>, name: string): (g: nat)
    ensures g <= |groups|
    ensures g < |groups| ==> groups[g].name == name
    ensures forall h :: 0 <= h < g ==> groups[h].name != name
  {
    if groups == [] then 0
    else if groups[0].name == name then 0
    else 1 + GroupIndex(groups[1..], name)
  }

  ghost predicate Registered<D>(s: Source<D>) {
    && (forall i :: 0 <= i < |s.plain| ==> ':' !in s.plain[i].name)
    && (forall g :: 0 <= g < |s.groups| ==> ':' !in s.groups[g].name && s.groups[g].alts != [])
    && (forall g, h :: 0 <= g < h < |s.groups| ==> s.groups[g].name != s.groups[h].name)
  }

  /** The module-level lists the decorators append to. */
  class Registry<D> {
    var source: Source<D>

    constructor ()
      ensures source == Source([], []) && Registered(source)
    {
      source := Source([], []);
    }

    /** The task decorator; false stands for the ValueError of a colon in the name. */
    method Task(name: string, body: D -> Reply<D>, checkpoint: bool) returns (ok: bool)
      requires Registered(source)
      modifies this
      ensures Registered(source)
      ensures ok == (':' !in name)
      ensures source == if ok then old(source).(plain := old(source).plain + [Plain(name, body, checkpoint)]) else old(source)
    {
      if ':' in name { return false; }
      source := source.(plain := source.plain + [Plain(name, body, checkpoint)]);
      return true;
    }

    /** The conditional_task decorator: a new group, or one more alternative of an old one. */
    method ConditionalTask(name: string, cond: string, body: D -> Reply<D>) returns (ok: bool)
      requires Registered(source)
      modifies this
      ensures Registered(source)
      ensures ok == (':' !in name)
      ensures var g := GroupIndex(old(source).groups, name); var a := Alternative(cond, body);
        source == if !ok then old(source)
                  else if g == |old(source).groups| then old(source).(groups := old(source).groups + [Group(name, [a])])
                  else old(source).(groups := old(source).groups[g := Group(name, old(source).groups[g].alts + [a])])
    {
      if ':' in name { return false; }
      var g := GroupIndex(source.groups, name);
      if g < |source.groups| {
        source := source.(groups := source.groups[g := Group(name, source.groups[g].alts + [Alternative(cond, body)])]);
      } else {
        source := source.(groups := source.groups + [Group(name, [Alternative(cond, body)])]);
      }
      return true;
    }
  }

  // ---- Compilation ----

  function Decimal(n: nat): (r: string)
    ensures r != [] && forall c :: c in r ==> '0' <= c <= '9'
  {
    if n < 10 then ["0123456789"[n]] else Decimal(n / 10) + ["0123456789"[n % 10]]
  }

  /** The number a decimal numeral stands for. */
  function Numeral(s: string): int {
    if s == [] then 0 else 10 * Numeral(s[..|s| - 1]) + (s[|s| - 1] as int - '0' as int)
  }

  lemma {:induction false} DecimalSpells(n: nat)
    ensures Numeral(Decimal(n)) == n
  {
    var s := Decimal(n);
    assert s[|s| - 1] == "0123456789"[n % 10] && "0123456789"[n % 10] as int == '0' as int + n % 10;
    if n < 10 {
      assert s[..|s| - 1] == [];
    } else {
      assert s[..|s| - 1] == Decimal(n / 10);
      DecimalSpells(n / 10);
    }
  }

  function AltName(name: string, i: nat): string {
    name + ":" + Decimal(i)
  }

  /** Adding a task to the set of tasks: tasks are equal when their ids are. */
  function AddTask(tasks: map<nat, Code>, id: nat, code: Code): map<nat, Code> {
    if id in tasks then tasks else tasks[id := code]
  }

  function PlainIds<D>(plain: seq<Plain<D>>, n: nat): (ids: map<string, nat>)
    requires n <= |plain|
    ensures forall i :: 0 <= i < n ==> plain[i].name in ids
  {
    if n == 0 then map[] else PlainIds(plain, n - 1)[plain[n - 1].name := n - 1]
  }

  function PlainTasks<D>(plain: seq<Plain<D>>, ids: map<string, nat>, n: nat): map<nat, Code>
    requires n <= |plain| && forall i :: 0 <= i < |plain| ==> plain[i].name in ids
  {
    if n == 0 then map[]
    else AddTask(PlainTasks(plain, ids, n - 1), ids[plain[n - 1].name], User(PlainRef(n - 1)))
  }

  /** A dictionary keyed by condition strings: a repeated key keeps its place and takes the new value. */
  function AddChoice(choices: seq<Choice>, c: Choice): seq<Choice> {
    if choices == [] then [c]
    else if choices[0].cond == c.cond then [c] + choices[1..]
    else [choices[0]] + AddChoice(choices[1..], c)
  }

  function Choices<D>(alts: seq<Alternative<D>>, base: nat, n: nat): seq<Choice>
    requires n <= |alts|
  {
    if n == 0 then [] else AddChoice(Choices(alts, base, n - 1), Choice(alts[n - 1].cond, base + n - 1))
  }

  /** The first n alternatives of group g get their tasks. */
  function WithAlts<D>(b: Build, group: Group<D>, g: nat, n: nat): Build
    requires n <= |group.alts|
  {
    if n == 0 then b
    else
      var p := WithAlts(b, group, g, n - 1);
      Build(p.ids[AltName(group.name, n - 1) := p.next], AddTask(p.tasks, p.next, User(AltRef(g, n - 1))), p.next + 1)
  }

  function WithGroup<D>(b: Build, group: Group<D>, g: nat): Build {
    var p := WithAlts(b, group, g, |group.alts|);
    Build(p.ids[group.name := p.next],
          AddTask(p.tasks, p.next, Dispatch(Choices(group.alts, b.next, |group.alts|))), p.next + 1)
  }

  function WithGroups<D>(b: Build, groups: seq<Group<D>>, n: nat): Build
    requires n <= |groups|
  {
    if n == 0 then b else WithGroup(WithGroups(b, groups, n - 1), groups[n - 1], n - 1)
  }

  function PlainBuild<D>(s: Source<D>): Build {
    var ids := PlainIds(s.plain, |s.plain|);
    Build(ids, PlainTasks(s.plain, ids, |s.plain|), |ids|)
  }

  function Built<D>(s: Source<D>): Build {
    WithGroups(PlainBuild(s), s.groups, |s.groups|)
  }

  /** The compiled program; it fails when an id needs more than two bytes or the start is unknown. */
  function Compiled<D>(s: Source<D>, start: string): Result<Program> {
    var b := Built(s);
    if |s.plain| > MAX_IDS || b.next > MAX_IDS || start !in b.ids then Failure
    else Success(Program(b.ids, b.tasks, b.ids[start]))
  }

  lemma {:induction false} AltsCount<D>(b: Build, group: Group<D>, g: nat, n: nat)
    requires n <= |group.alts|
    ensures WithAlts(b, group, g, n).next == b.next + n
  {
    if n > 0 { AltsCount(b, group, g, n - 1); }
  }

  lemma WithAltsNext<D>(b: Build, group: Group<D>, g: nat, n: nat)
    requires n < |group.alts|
    ensures var p := WithAlts(b, group, g, n);
      WithAlts(b, group, g, n + 1) == Build(p.ids[AltName(group.name, n) := p.next], AddTask(p.tasks, p.next, User(AltRef(g, n))), p.next + 1)
  {
  }

  lemma ChoicesNext<D>(alts: seq<Alternative<D>>, base: nat, n: nat)
    requires n < |alts|
    ensures Choices(alts, base, n + 1) == AddChoice(Choices(alts, base, n), Choice(alts[n].cond, base + n))
  {
  }

  lemma GroupNext<D>(b: Build, group: Group<D>, g: nat)
    ensures WithGroup(b, group, g).next == b.next + |group.alts| + 1
  {
    AltsCount(b, group, g, |group.alts|);
    hide WithAlts, Choices, AddTask;
  }

  lemma NoAlts<D>(b: Build, group: Group<D>, g: nat)
    ensures WithAlts(b, group, g, 0) == b && Choices(group.alts, b.next, 0) == []
  {
  }

  /** The alternatives of one group, with the dictionary of their conditions. */
  method CompileAlts<D>(b: Build, group: Group<D>, g: nat) returns (p: Build, conditions: seq<Choice>, ok: bool)
    ensures ok <==> b.next + |group.alts| <= MAX_IDS || group.alts == []
    ensures ok ==> p == WithAlts(b, group, g, |group.alts|) && conditions == Choices(group.alts, b.next, |group.alts|)
  {
    hide *;
    NoAlts(b, group, g);
    var ids: map<string, nat>, tasks: map<nat, Code>, counterAll: nat := b.ids, b.tasks, b.next;
    conditions := [];
    for counter := 0 to |group.alts|
      invariant Build(ids, tasks, counterAll) == WithAlts(b, group, g, counter)
      invariant counterAll == b.next + counter && (counter > 0 ==> counterAll <= MAX_IDS)
      invariant conditions == Choices(group.alts, b.next, counter)
    {
      if counterAll >= MAX_IDS { return b, [], false; }
      WithAltsNext(b, group, g, counter);
      ChoicesNext(group.alts, b.next, counter);
      ids := ids[AltName(group.name, counter) := counterAll];
      tasks := AddTask(tasks, counterAll, User(AltRef(g, counter)));
      conditions := AddChoice(conditions, Choice(group.alts[counter].cond, counterAll));
      counterAll := counterAll + 1;
    }
    return Build(ids, tasks, counterAll), conditions, true;
  }

  method CompileGroup<D>(b: Build, group: Group<D>, g: nat) returns (r: Result<Build>)
    ensures r == if WithGroup(b, group, g).next > MAX_IDS then Failure else Success(WithGroup(b, group, g))
  {
    GroupNext(b, group, g);
    AltsCount(b, group, g, |group.alts|);
    hide WithAlts, Choices, AddTask;
    var p, conditions, ok := CompileAlts(b, group, g);
    if !ok || p.next >= MAX_IDS { return Failure; }
    return Success(Build(p.ids[group.name := p.next], AddTask(p.tasks, p.next, Dispatch(conditions)), p.next + 1));
  }

  lemma {:induction false} GroupsGrow<D>(b: Build, groups: seq<Group<D>>, m: nat, n: nat)
    requires m <= n <= |groups|
    ensures WithGroups(b, groups, m).next <= WithGroups(b, groups, n).next
  {
    hide WithGroup;
    if m < n {
      GroupsGrow(b, groups, m, n - 1);
      GroupNext(WithGroups(b, groups, n - 1), groups[n - 1], n - 1);
    }
  }

  /** Unconditional tasks are numbered in registration order; the last of a repeated name counts. */
  method NumberPlain<D>(plain: seq<Plain<D>>) returns (r: Result<map<string, nat>>)
    ensures r == if |plain| > MAX_IDS then Failure else Success(PlainIds(plain, |plain|))
  {
    var ids: map<string, nat> := map[];
    for counter := 0 to |plain|
      invariant ids == PlainIds(plain, counter) && counter <= MAX_IDS
    {
      if counter >= MAX_IDS { return Failure; }
      ids := ids[plain[counter].name := counter];
    }
    return Success(ids);
  }

  method CompilePlain<D>(s: Source<D>) returns (r: Result<Build>)
    ensures r == if |s.plain| > MAX_IDS then Failure else Success(PlainBuild(s))
  {
    var ids := NumberPlain(s.plain);
    if ids.Failure? { return Failure; }
    var tasks: map<nat, Code> := map[];
    for i := 0 to |s.plain|
      invariant tasks == PlainTasks(s.plain, ids.value, i)
    {
      tasks := AddTask(tasks, ids.value[s.plain[i].name], User(PlainRef(i)));
    }
    return Success(Build(ids.value, tasks, |ids.value|));
  }

  lemma {:induction false} FewerNames<D>(plain: seq<Plain<D>>, n: nat)
    requires n <= |plain|
    ensures |PlainIds(plain, n)| <= n
  {
    if n > 0 { FewerNames(plain, n - 1); }
  }

  lemma PlainFits<D>(s: Source<D>)
    ensures PlainBuild(s).next <= |s.plain|
  {
    FewerNames(s.plain, |s.plain|);
  }

  method Compile<D>(s: Source<D>, start: string) returns (r: Result<Program>)
    ensures r == Compiled(s, start)
  {
    hide PlainBuild, WithGroup;
    var plain := CompilePlain(s);
    if plain.Failure? { return Failure; }
    var b := plain.value;
    PlainFits(s);
    for g := 0 to |s.groups|
      invariant b == WithGroups(PlainBuild(s), s.groups, g)
      invariant b.next <= MAX_IDS
    {
      var next := CompileGroup(b, s.groups[g], g);
      if next.Failure? {
        GroupsGrow(PlainBuild(s), s.groups, g + 1, |s.groups|);
        return Failure;
      }
      b := next.value;
    }
    if start !in b.ids { return Failure; }
    return Success(Program(b.ids, b.tasks, b.ids[start]));
  }
}
