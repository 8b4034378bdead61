/** Where the compiler puts the tasks of a source whose names are distinct. */
module CompilerLayout {
  import opened Compiler

  /** Registered names, with no name used twice. */
  ghost predicate Distinct<D>(s: Source<D>) {
    && Registered(s)
    && (forall i, j :: 0 <= i < j < |s.plain| ==> s.plain[i].name != s.plain[j].name)
    && (forall i, g :: 0 <= i < |s.plain| && 0 <= g < |s.groups| ==> s.plain[i].name != s.groups[g].name)
  }

  // ---- Names of alternatives ----

  lemma {:induction false} DecimalInjective(i: nat, j: nat)
    requires Decimal(i) == Decimal(j)
    ensures i == j
  {
    DecimalLast(i);
    DecimalLast(j);
    if i >= 10 && j >= 10 {
      DecimalInjective(i / 10, j / 10);
    }
  }

  lemma DecimalLast(n: nat)
    ensures n % 10 < |"0123456789"|
    ensures Decimal(n)[|Decimal(n)| - 1] == "0123456789"[n % 10]
    ensures n >= 10 ==> Decimal(n)[..|Decimal(n)| - 1] == Decimal(n / 10)
    ensures n < 10 <==> |Decimal(n)| == 1
    ensures forall a, b :: 0 <= a < b < 10 ==> "0123456789"[a] != "0123456789"[b]
  {
  }

  lemma FirstColon(a: string, i: nat)
    requires ':' !in a
    ensures AltName(a, i)[|a|] == ':'
    ensures forall k :: 0 <= k < |a| ==> AltName(a, i)[k] != ':'
    ensures AltName(a, i)[..|a|] == a && AltName(a, i)[|a| + 1..] == Decimal(i)
  {
    var x := AltName(a, i);
    assert x == a + (":" + Decimal(i));
    forall k | 0 <= k < |a| ensures x[k] != ':' { assert x[k] == a[k] && a[k] in a; }
  }

  lemma AltNameInjective(a: string, i: nat, b: string, j: nat)
    requires ':' !in a && ':' !in b && AltName(a, i) == AltName(b, j)
    ensures a == b && i == j
  {
    FirstColon(a, i);
    FirstColon(b, j);
    DecimalInjective(i, j);
  }

  // ---- One task at a time ----

  /** Ids in use are below the next one and no two names share one. */
  ghost predicate Laid(b: Build) {
    && (forall x :: x in b.ids ==> b.ids[x] < b.next)
    && (forall x, y :: x in b.ids && y in b.ids && b.ids[x] == b.ids[y] ==> x == y)
    && (forall t :: t in b.tasks ==> t < b.next)
  }

  /** c keeps every name and task of b. */
  ghost predicate Extends(b: Build, c: Build) {
    && b.next <= c.next
    && (forall x :: x in b.ids ==> x in c.ids && c.ids[x] == b.ids[x])
    && (forall t :: t in b.tasks ==> t in c.tasks && c.tasks[t] == b.tasks[t])
  }

  function Next(b: Build, name: string, code: Code): Build {
    Build(b.ids[name := b.next], AddTask(b.tasks, b.next, code), b.next + 1)
  }

  lemma NextLaid(b: Build, name: string, code: Code)
    requires Laid(b) && name !in b.ids
    ensures var c := Next(b, name, code);
      && Laid(c) && Extends(b, c) && c.next == b.next + 1 && c.ids.Keys == b.ids.Keys + {name}
      && c.ids[name] == b.next && b.next in c.tasks && c.tasks[b.next] == code
  {
    assert b.next !in b.tasks;
  }

  // ---- Names in use ----

  function PlainNames<D>(s: Source<D>): set<string> {
    set i | 0 <= i < |s.plain| :: s.plain[i].name
  }

  function GroupNames<D>(s: Source<D>): set<string> {
    set g | 0 <= g < |s.groups| :: s.groups[g].name
  }

  function AltNames(name: string, n: nat): set<string> {
    if n == 0 then {} else AltNames(name, n - 1) + {AltName(name, n - 1)}
  }

  lemma {:induction false} AltNamesHaveColons(name: string, n: nat, x: string)
    requires ':' !in x
    ensures x !in AltNames(name, n)
  {
    if n > 0 {
      AltNamesHaveColons(name, n - 1, x);
      assert AltName(name, n - 1)[|name|] == ':';
    }
  }

  lemma {:induction false} AltNameFresh(a: string, n: nat, b: string, i: nat)
    requires ':' !in a && ':' !in b && (a != b || n <= i)
    ensures AltName(b, i) !in AltNames(a, n)
  {
    if n > 0 {
      AltNameFresh(a, n - 1, b, i);
      if AltName(a, n - 1) == AltName(b, i) { AltNameInjective(a, n - 1, b, i); }
    }
  }

  /** The names given to the tasks of the first g groups. */
  function Given<D>(s: Source<D>, g: nat): set<string>
    requires g <= |s.groups|
  {
    if g == 0 then {}
    else Given(s, g - 1) + AltNames(s.groups[g - 1].name, |s.groups[g - 1].alts|) + {s.groups[g - 1].name}
  }

  lemma {:induction false} GivenFresh<D>(s: Source<D>, g: nat, name: string, i: nat)
    requires Registered(s) && g <= |s.groups| && ':' !in name && forall h :: 0 <= h < g ==> s.groups[h].name != name
    ensures AltName(name, i) !in Given(s, g) && name !in Given(s, g)
  {
    assert AltName(name, i)[|name|] == ':';
    if g > 0 {
      var group := s.groups[g - 1];
      GivenFresh(s, g - 1, name, i);
      AltNameFresh(group.name, |group.alts|, name, i);
      AltNamesHaveColons(group.name, |group.alts|, name);
    }
  }

  /** Of the unconditional names exactly those that are also a group's are given again. */
  lemma {:induction false} GivenTargets<D>(s: Source<D>, g: nat, x: string)
    requires g <= |s.groups| && ':' !in x
    ensures x in Given(s, g) <==> exists h :: 0 <= h < g && s.groups[h].name == x
  {
    if g > 0 {
      GivenTargets(s, g - 1, x);
      AltNamesHaveColons(s.groups[g - 1].name, |s.groups[g - 1].alts|, x);
    }
  }

  /** The names given out before group g is compiled. */
  function Used<D>(s: Source<D>, g: nat): set<string>
    requires g <= |s.groups|
  {
    PlainNames(s) + Given(s, g)
  }

  lemma UsedNext<D>(s: Source<D>, g: nat)
    requires g < |s.groups|
    ensures Used(s, g + 1) == Used(s, g) + AltNames(s.groups[g].name, |s.groups[g].alts|) + {s.groups[g].name}
  {
    hide AltNames, PlainNames;
  }

  lemma UsedFresh<D>(s: Source<D>, g: nat, name: string, i: nat)
    requires Distinct(s) && g <= |s.groups| && ':' !in name && forall h :: 0 <= h < g ==> s.groups[h].name != name
    ensures AltName(name, i) !in Used(s, g)
    ensures name in Used(s, g) ==> name in PlainNames(s)
  {
    assert AltName(name, i)[|name|] == ':';
    GivenFresh(s, g, name, i);
    hide Given;
  }

  /** Of the names given out, those a program can target are the ones it registered. */
  lemma UsedTargets<D>(s: Source<D>, g: nat, x: string)
    requires Distinct(s) && g <= |s.groups| && ':' !in x
    ensures x in Used(s, g) <==> x in PlainNames(s) || exists h :: 0 <= h < g && s.groups[h].name == x
  {
    GivenTargets(s, g, x);
    hide Given;
  }

  // ---- Groups ----

  /** The first n alternatives of group g stand at base, base + 1, ... */
  ghost predicate AltsAt(c: Build, base: nat, name: string, g: nat, n: nat) {
    forall i :: 0 <= i < n ==> AltAt(c, base + i, AltName(name, i), g, i)
  }

  ghost predicate AltAt(c: Build, id: nat, name: string, g: nat, i: nat) {
    && id in c.tasks && c.tasks[id] == User(AltRef(g, i))
    && name in c.ids && c.ids[name] == id
  }

  lemma AltsAtExtends(b: Build, c: Build, base: nat, name: string, g: nat, n: nat)
    requires AltsAt(b, base, name, g, n) && Extends(b, c)
    ensures AltsAt(c, base, name, g, n)
  {
    forall i | 0 <= i < n ensures AltAt(c, base + i, AltName(name, i), g, i) {
      assert AltAt(b, base + i, AltName(name, i), g, i);
    }
  }

  lemma ExtendsTransitive(a: Build, b: Build, c: Build)
    requires Extends(a, b) && Extends(b, c)
    ensures Extends(a, c)
  {
  }

  lemma NextAlt(p: Build, name: string, g: nat, i: nat)
    requires Laid(p) && name !in p.ids
    ensures var c := Next(p, name, User(AltRef(g, i)));
      && Laid(c) && Extends(p, c) && c.next == p.next + 1 && c.ids.Keys == p.ids.Keys + {name}
      && AltAt(c, p.next, name, g, i)
  {
    NextLaid(p, name, User(AltRef(g, i)));
  }

  lemma WithAltsStep<D>(b: Build, group: Group<D>, g: nat, n: nat)
    requires 0 < n <= |group.alts|
    ensures WithAlts(b, group, g, n) == Next(WithAlts(b, group, g, n - 1), AltName(group.name, n - 1), User(AltRef(g, n - 1)))
  {
  }

  /** c is b with the first n alternatives of group g added. */
  ghost predicate AltsDone(b: Build, c: Build, name: string, g: nat, n: nat) {
    && Laid(c) && Extends(b, c) && c.next == b.next + n
    && c.ids.Keys == b.ids.Keys + AltNames(name, n) && AltsAt(c, b.next, name, g, n)
  }

  lemma AltsStep(b: Build, p: Build, name: string, g: nat, n: nat)
    requires n > 0 && ':' !in name && AltsDone(b, p, name, g, n - 1) && AltName(name, n - 1) !in b.ids
    ensures AltsDone(b, Next(p, AltName(name, n - 1), User(AltRef(g, n - 1))), name, g, n)
  {
    hide Laid, Extends, AltsAt, AltAt, AltName, Next;
    AltNameFresh(name, n - 1, name, n - 1);
    NextAlt(p, AltName(name, n - 1), g, n - 1);
    var c := Next(p, AltName(name, n - 1), User(AltRef(g, n - 1)));
    AltsAtExtends(p, c, b.next, name, g, n - 1);
    ExtendsTransitive(b, p, c);
    AltAtLast(c, b.next, name, g, n);
  }

  lemma {:induction false} AltsLaid<D>(b: Build, group: Group<D>, g: nat, n: nat)
    requires n <= |group.alts| && Laid(b) && ':' !in group.name
    requires forall i :: 0 <= i < n ==> AltName(group.name, i) !in b.ids
    ensures AltsDone(b, WithAlts(b, group, g, n), group.name, g, n)
  {
    hide *;
    if n == 0 {
      NoAlts(b, group, g);
      NothingAdded(b, group.name, g);
    } else {
      AltsLaid(b, group, g, n - 1);
      WithAltsStep(b, group, g, n);
      AltsStep(b, WithAlts(b, group, g, n - 1), group.name, g, n);
    }
  }

  lemma NothingAdded(b: Build, name: string, g: nat)
    requires Laid(b)
    ensures AltsDone(b, b, name, g, 0)
  {
  }

  lemma AltAtLast(c: Build, base: nat, name: string, g: nat, n: nat)
    requires n > 0 && AltsAt(c, base, name, g, n - 1) && AltAt(c, base + n - 1, AltName(name, n - 1), g, n - 1)
    ensures AltsAt(c, base, name, g, n)
  {
    forall i | 0 <= i < n ensures AltAt(c, base + i, AltName(name, i), g, i) {
      if i < n - 1 { assert AltAt(c, base + i, AltName(name, i), g, i); }
    }
  }

  /** Group g stands at base: its alternatives in order, then its dispatcher. */
  ghost predicate GroupAt<D>(s: Source<D>, c: Build, g: nat, base: nat)
    requires g < |s.groups|
  {
    var group := s.groups[g];
    && AltsAt(c, base, group.name, g, |group.alts|)
    && base + |group.alts| in c.tasks && c.tasks[base + |group.alts|] == Dispatch(Choices(group.alts, base, |group.alts|))
    && group.name in c.ids && c.ids[group.name] == base + |group.alts|
  }

  lemma GroupAtExtends<D>(s: Source<D>, b: Build, c: Build, g: nat, base: nat)
    requires g < |s.groups| && GroupAt(s, b, g, base) && Extends(b, c)
    ensures GroupAt(s, c, g, base)
  {
    AltsAtExtends(b, c, base, s.groups[g].name, g, |s.groups[g].alts|);
  }

  lemma GroupFresh<D>(s: Source<D>, b: Build, g: nat)
    requires Distinct(s) && g < |s.groups| && b.ids.Keys == Used(s, g)
    ensures s.groups[g].name !in b.ids
    ensures forall i: nat :: AltName(s.groups[g].name, i) !in b.ids
  {
    forall i: nat ensures AltName(s.groups[g].name, i) !in b.ids { UsedFresh(s, g, s.groups[g].name, i); }
    UsedFresh(s, g, s.groups[g].name, 0);
  }

  lemma DispatcherLaid<D>(s: Source<D>, p: Build, g: nat, base: nat)
    requires g < |s.groups| && Laid(p) && s.groups[g].name !in p.ids && p.next == base + |s.groups[g].alts|
    requires AltsAt(p, base, s.groups[g].name, g, |s.groups[g].alts|)
    ensures var c := Next(p, s.groups[g].name, Dispatch(Choices(s.groups[g].alts, base, |s.groups[g].alts|)));
      Laid(c) && Extends(p, c) && c.ids.Keys == p.ids.Keys + {s.groups[g].name} && GroupAt(s, c, g, base)
  {
    var code := Dispatch(Choices(s.groups[g].alts, base, |s.groups[g].alts|));
    hide AltsAt;
    NextLaid(p, s.groups[g].name, code);
    AltsAtExtends(p, Next(p, s.groups[g].name, code), base, s.groups[g].name, g, |s.groups[g].alts|);
  }

  lemma WithGroupStep<D>(b: Build, group: Group<D>, g: nat)
    ensures var n := |group.alts|;
      WithGroup(b, group, g) == Next(WithAlts(b, group, g, n), group.name, Dispatch(Choices(group.alts, b.next, n)))
  {
  }

  lemma GroupLaid<D>(s: Source<D>, b: Build, g: nat)
    requires Distinct(s) && g < |s.groups| && Laid(b) && b.ids.Keys == Used(s, g)
    ensures var c := WithGroup(b, s.groups[g], g);
      Laid(c) && Extends(b, c) && c.ids.Keys == Used(s, g + 1) && GroupAt(s, c, g, b.next)
  {
    hide Laid, Extends, AltsAt, AltName, WithAlts, Next, WithGroup, GroupAt, Distinct;
    var group := s.groups[g];
    var n := |group.alts|;
    GroupFresh(s, b, g);
    NameOfGroup(s, g);
    AltsLaid(b, group, g, n);
    var p := WithAlts(b, group, g, n);
    AltNamesHaveColons(group.name, n, group.name);
    DispatcherLaid(s, p, g, b.next);
    WithGroupStep(b, group, g);
    UsedNext(s, g);
    hide Used;
    ExtendsTransitive(b, p, WithGroup(b, group, g));
  }

  lemma NameOfGroup<D>(s: Source<D>, g: nat)
    requires Distinct(s) && g < |s.groups|
    ensures ':' !in s.groups[g].name
  {
  }

  function Base<D>(s: Source<D>, g: nat): nat
    requires g <= |s.groups|
  {
    WithGroups(PlainBuild(s), s.groups, g).next
  }

  ghost predicate PlainAt<D>(s: Source<D>, c: Build) {
    forall i :: 0 <= i < |s.plain| ==>
      && s.plain[i].name in c.ids && c.ids[s.plain[i].name] == i
      && i in c.tasks && c.tasks[i] == User(PlainRef(i))
  }

  /** The ids of the first n names are their positions. */
  ghost predicate Numbered<D>(s: Source<D>, ids: map<string, nat>, n: nat)
    requires n <= |s.plain|
  {
    && |ids| == n
    && (forall i :: 0 <= i < n ==> s.plain[i].name in ids && ids[s.plain[i].name] == i)
    && (forall x :: x in ids ==> exists i :: 0 <= i < n && s.plain[i].name == x)
  }

  lemma PlainIdsStep<D>(s: Source<D>, ids: map<string, nat>, n: nat)
    requires Distinct(s) && 0 < n <= |s.plain| && Numbered(s, ids, n - 1)
    ensures Numbered(s, ids[s.plain[n - 1].name := n - 1], n)
  {
    var name := s.plain[n - 1].name;
    NameIsNew(s, ids, n);
    OneMoreName(ids, name, n - 1);
    hide Distinct;
    var more := ids[name := n - 1];
    forall x | x in more ensures exists i :: 0 <= i < n && s.plain[i].name == x {
      if x == name { assert s.plain[n - 1].name == x; }
    }
  }

  lemma NameIsNew<D>(s: Source<D>, ids: map<string, nat>, n: nat)
    requires Distinct(s) && 0 < n <= |s.plain| && Numbered(s, ids, n - 1)
    ensures s.plain[n - 1].name !in ids && forall i :: 0 <= i < n - 1 ==> s.plain[i].name != s.plain[n - 1].name
  {
  }

  lemma OneMoreName(ids: map<string, nat>, name: string, id: nat)
    requires name !in ids
    ensures |ids[name := id]| == |ids| + 1
  {
    assert ids[name := id].Keys == ids.Keys + {name};
  }

  lemma {:induction false} PlainIdsLaid<D>(s: Source<D>, n: nat)
    requires Distinct(s) && n <= |s.plain|
    ensures Numbered(s, PlainIds(s.plain, n), n)
  {
    if n > 0 {
      hide Numbered, Distinct;
      PlainIdsLaid(s, n - 1);
      PlainIdsStep(s, PlainIds(s.plain, n - 1), n);
    }
  }

  lemma {:induction false} PlainTasksLaid<D>(s: Source<D>, ids: map<string, nat>, n: nat)
    requires n <= |s.plain| && forall i :: 0 <= i < |s.plain| ==> s.plain[i].name in ids && ids[s.plain[i].name] == i
    ensures var t := PlainTasks(s.plain, ids, n);
      (forall i :: 0 <= i < n ==> i in t && t[i] == User(PlainRef(i))) && (forall i :: i in t ==> i < n)
  {
    if n > 0 { PlainTasksLaid(s, ids, n - 1); }
  }

  lemma NumberedKeys<D>(s: Source<D>, ids: map<string, nat>)
    requires Numbered(s, ids, |s.plain|)
    ensures ids.Keys == PlainNames(s)
  {
  }

  lemma NumberedLaid<D>(s: Source<D>, ids: map<string, nat>, tasks: map<nat, Code>)
    requires Numbered(s, ids, |s.plain|) && (forall i :: i in tasks ==> i < |s.plain|)
    ensures Laid(Build(ids, tasks, |s.plain|))
  {
  }

  lemma NumberedPlain<D>(s: Source<D>, ids: map<string, nat>, tasks: map<nat, Code>)
    requires Numbered(s, ids, |s.plain|) && forall i :: 0 <= i < |s.plain| ==> i in tasks && tasks[i] == User(PlainRef(i))
    ensures PlainAt(s, Build(ids, tasks, |s.plain|))
  {
  }

  lemma PlainParts<D>(s: Source<D>)
    requires Distinct(s)
    ensures var ids := PlainIds(s.plain, |s.plain|);
      var tasks := PlainTasks(s.plain, ids, |s.plain|);
      && Numbered(s, ids, |s.plain|) && PlainBuild(s) == Build(ids, tasks, |s.plain|) && Used(s, 0) == PlainNames(s)
      && (forall i :: 0 <= i < |s.plain| ==> i in tasks && tasks[i] == User(PlainRef(i))) && (forall i :: i in tasks ==> i < |s.plain|)
  {
    PlainIdsLaid(s, |s.plain|);
    hide Distinct, PlainIds, PlainTasks, PlainNames;
    PlainTasksLaid(s, PlainIds(s.plain, |s.plain|), |s.plain|);
  }

  lemma PlainLaid<D>(s: Source<D>)
    requires Distinct(s)
    ensures var b := PlainBuild(s); Laid(b) && PlainAt(s, b) && b.ids.Keys == Used(s, 0) && b.next == |s.plain|
  {
    hide *;
    PlainParts(s);
    var ids := PlainIds(s.plain, |s.plain|);
    var tasks := PlainTasks(s.plain, ids, |s.plain|);
    NumberedKeys(s, ids);
    NumberedLaid(s, ids, tasks);
    NumberedPlain(s, ids, tasks);
  }

  /** The layout after the first n groups. */
  ghost predicate LaidOut<D>(s: Source<D>, b: Build, n: nat)
    requires n <= |s.groups|
  {
    && Laid(b) && PlainAt(s, b) && b.ids.Keys == Used(s, n)
    && (forall g :: 0 <= g < n ==> GroupAt(s, b, g, Base(s, g)))
  }

  lemma PlainAtExtends<D>(s: Source<D>, b: Build, c: Build)
    requires PlainAt(s, b) && Extends(b, c)
    ensures PlainAt(s, c)
  {
  }

  lemma {:induction false} GroupsLaid<D>(s: Source<D>, n: nat)
    requires Distinct(s) && n <= |s.groups|
    ensures LaidOut(s, WithGroups(PlainBuild(s), s.groups, n), n)
  {
    hide Laid, GroupAt, PlainAt, WithGroup, Used, Distinct, PlainBuild;
    PlainLaid(s);
    if n > 0 {
      GroupsLaid(s, n - 1);
      OneMoreGroup(s, WithGroups(PlainBuild(s), s.groups, n - 1), n);
    }
  }

  lemma OneMoreGroup<D>(s: Source<D>, p: Build, n: nat)
    requires Distinct(s) && 0 < n <= |s.groups| && LaidOut(s, p, n - 1) && p.next == Base(s, n - 1)
    ensures LaidOut(s, WithGroup(p, s.groups[n - 1], n - 1), n)
  {
    hide Laid, GroupAt, Extends, WithGroup, Used, Distinct;
    var b := WithGroup(p, s.groups[n - 1], n - 1);
    GroupLaid(s, p, n - 1);
    PlainAtExtends(s, p, b);
    forall g | 0 <= g < n - 1 ensures GroupAt(s, b, g, Base(s, g)) { GroupAtExtends(s, p, b, g, Base(s, g)); }
  }

  /** Distinct names get distinct two-byte ids, and exactly the registered names can be targeted. */
  lemma IdsAreDistinct<D>(s: Source<D>, start: string)
    requires Distinct(s) && Compiled(s, start).Success?
    ensures var p := Compiled(s, start).value;
      && (forall x :: x in p.ids ==> p.ids[x] < MAX_IDS)
      && (forall x, y :: x in p.ids && y in p.ids && x != y ==> p.ids[x] != p.ids[y])
      && (forall x :: ':' !in x ==> (x in p.ids <==> x in PlainNames(s) + GroupNames(s)))
  {
    var b := Built(s);
    GroupsLaid(s, |s.groups|);
    hide Used, Built, GroupAt, PlainAt;
    forall x | ':' !in x ensures x in b.ids <==> x in PlainNames(s) + GroupNames(s) {
      UsedTargets(s, |s.groups|, x);
    }
  }
}
