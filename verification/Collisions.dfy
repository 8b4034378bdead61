/**
 * Unconditional tasks registered under one name (src/core/star_components.py).  Ids count the
 * registrations, but conditional tasks are numbered from the count of distinct names on, so that a
 * repeated name can make two names share an id.
 */
module Collisions {
  import opened Compiler
  import opened CompilerLayout

  // ---- Unconditional names ----

  /** The id of an unconditional name is the position of its last registration. */
  lemma {:induction false} IdIsLast<D>(plain: seq<Plain<D>>, n: nat, x: string)
    requires n <= |plain| && x in PlainIds(plain, n)
    ensures var i := PlainIds(plain, n)[x]; i < n && plain[i].name == x && forall j :: i < j < n ==> plain[j].name != x
  {
    if x != plain[n - 1].name { IdIsLast(plain, n - 1, x); }
  }

  lemma {:induction false} IdsAreNames<D>(plain: seq<Plain<D>>, n: nat, x: string)
    requires n <= |plain|
    ensures x in PlainIds(plain, n) <==> exists i :: 0 <= i < n && plain[i].name == x
  {
    if n > 0 {
      IdsAreNames(plain, n - 1, x);
      if x == plain[n - 1].name { assert plain[n - 1].name == x; }
    }
  }

  ghost predicate FirstOf<D>(plain: seq<Plain<D>>, x: string, i: nat) {
    i < |plain| && plain[i].name == x && forall j :: 0 <= j < i ==> plain[j].name != x
  }

  /** The callable of an unconditional name is the first function registered under it. */
  lemma {:induction false} FirstRuns<D>(plain: seq<Plain<D>>, n: nat, x: string, i: nat)
    requires n <= |plain| && FirstOf(plain, x, i) && forall j :: 0 <= j < |plain| ==> plain[j].name in PlainIds(plain, |plain|)
    ensures var ids := PlainIds(plain, |plain|); var t := PlainTasks(plain, ids, n);
      && x in ids && (ids[x] in t <==> i < n) && (i < n ==> t[ids[x]] == User(PlainRef(i)))
  {
    var ids := PlainIds(plain, |plain|);
    if n > 0 {
      FirstRuns(plain, n - 1, x, i);
      IdIsLast(plain, |plain|, x);
      IdIsLast(plain, |plain|, plain[n - 1].name);
    }
  }

  lemma NamesAreIds<D>(s: Source<D>)
    ensures PlainIds(s.plain, |s.plain|).Keys == PlainNames(s)
  {
    forall x ensures x in PlainIds(s.plain, |s.plain|) <==> x in PlainNames(s) { IdsAreNames(s.plain, |s.plain|, x); }
  }

  // ---- When a source compiles ----

  /** The tasks of the first n groups: each alternative, and a dispatcher. */
  function Conditionals<D>(groups: seq<Group<D>>, n: nat): nat
    requires n <= |groups|
  {
    if n == 0 then 0 else Conditionals(groups, n - 1) + |groups[n - 1].alts| + 1
  }

  lemma {:induction false} GroupsCount<D>(b: Build, groups: seq<Group<D>>, n: nat)
    requires n <= |groups|
    ensures WithGroups(b, groups, n).next == b.next + Conditionals(groups, n)
  {
    hide WithGroup;
    if n > 0 {
      GroupsCount(b, groups, n - 1);
      GroupNext(WithGroups(b, groups, n - 1), groups[n - 1], n - 1);
    }
  }

  /** Compilation succeeds exactly when the registered unconditional functions fit two bytes, so do the
      ids of all names and conditional tasks, and the start is a registered name. */
  lemma CompilesWhen<D>(s: Source<D>, start: string)
    requires Registered(s) && ':' !in start
    ensures Compiled(s, start).Success? <==>
      && |s.plain| <= 65536 && |PlainNames(s)| + Conditionals(s.groups, |s.groups|) <= 65536
      && start in PlainNames(s) + GroupNames(s)
  {
    hide Given, WithGroups, Conditionals, PlainTasks;
    var b := PlainBuild(s);
    NamesAreIds(s);
    assert b.ids == PlainIds(s.plain, |s.plain|) && b.next == |PlainNames(s)| by { KeyCount(PlainIds(s.plain, |s.plain|)); }
    GroupsCount(b, s.groups, |s.groups|);
    GroupsNumbered(s, b, |s.groups|);
    GivenTargets(s, |s.groups|, start);
    BuiltIs(s);
    hide PlainIds, Built, PlainBuild, PlainNames, Registered;
  }

  lemma KeyCount(m: map<string, nat>)
    ensures |m| == |m.Keys|
  {
  }

  // ---- Conditional names ----

  /** The names given so far have one id each of those from the start on, none is left out, and no
      other name or task of the start is touched. */
  ghost predicate Numbering(b: Build, c: Build, names: set<string>) {
    && b.next <= c.next && c.ids.Keys == b.ids.Keys + names
    && (forall x :: x in b.ids && x !in names ==> c.ids[x] == b.ids[x])
    && (forall x :: x in names ==> b.next <= c.ids[x] < c.next)
    && (forall x, y :: x in names && y in names && c.ids[x] == c.ids[y] ==> x == y)
    && (forall id :: b.next <= id < c.next ==> HasId(c.ids, names, id))
    && (forall t :: t in b.tasks ==> t in c.tasks && c.tasks[t] == b.tasks[t])
  }

  ghost predicate HasId(ids: map<string, nat>, names: set<string>, id: nat) {
    exists x :: x in names && x in ids && ids[x] == id
  }

  lemma NothingNumbered(b: Build)
    ensures Numbering(b, b, {})
  {
  }

  lemma NumberingStep(b: Build, c: Build, names: set<string>, name: string, code: Code)
    requires Numbering(b, c, names) && name !in names
    ensures Numbering(b, Next(c, name, code), names + {name})
  {
    NumberingStepIds(b, c, names, name, code);
    hide HasId;
  }

  lemma NumberingStepIds(b: Build, c: Build, names: set<string>, name: string, code: Code)
    requires Numbering(b, c, names) && name !in names
    ensures var d := Next(c, name, code); forall id :: b.next <= id < d.next ==> HasId(d.ids, names + {name}, id)
  {
    var d := Next(c, name, code);
    forall id | b.next <= id < d.next ensures HasId(d.ids, names + {name}, id) {
      if id < c.next {
        assert HasId(c.ids, names, id);
        var x :| x in names && x in c.ids && c.ids[x] == id;
        assert x in names + {name} && d.ids[x] == id;
      } else {
        assert name in names + {name} && d.ids[name] == id;
      }
    }
  }

  lemma {:induction false} AltsNumbered<D>(s: Source<D>, b: Build, c: Build, g: nat, n: nat)
    requires Registered(s) && g < |s.groups| && n <= |s.groups[g].alts| && Numbering(b, c, Given(s, g))
    ensures Numbering(b, WithAlts(c, s.groups[g], g, n), Given(s, g) + AltNames(s.groups[g].name, n))
  {
    hide Numbering, AltName, Next, Given;
    var group := s.groups[g];
    if n == 0 {
      NoAlts(c, group, g);
      assert Given(s, g) + AltNames(group.name, 0) == Given(s, g);
    } else {
      AltsNumbered(s, b, c, g, n - 1);
      WithAltsStep(c, group, g, n);
      GivenFresh(s, g, group.name, n - 1);
      AltNameFresh(group.name, n - 1, group.name, n - 1);
      var names := Given(s, g) + AltNames(group.name, n - 1);
      NumberingStep(b, WithAlts(c, group, g, n - 1), names, AltName(group.name, n - 1), User(AltRef(g, n - 1)));
      assert names + {AltName(group.name, n - 1)} == Given(s, g) + AltNames(group.name, n);
    }
  }

  lemma GroupNumbered<D>(s: Source<D>, b: Build, c: Build, g: nat)
    requires Registered(s) && g < |s.groups| && Numbering(b, c, Given(s, g))
    ensures Numbering(b, WithGroup(c, s.groups[g], g), Given(s, g + 1))
  {
    hide Numbering, AltName, Next, WithGroup, WithAlts, AltNames;
    var group := s.groups[g];
    var n := |group.alts|;
    AltsNumbered(s, b, c, g, n);
    WithGroupStep(c, group, g);
    GivenFresh(s, g, group.name, 0);
    AltNamesHaveColons(group.name, n, group.name);
    NumberingStep(b, WithAlts(c, group, g, n), Given(s, g) + AltNames(group.name, n), group.name, Dispatch(Choices(group.alts, c.next, n)));
  }

  lemma {:induction false} GroupsNumbered<D>(s: Source<D>, b: Build, g: nat)
    requires Registered(s) && g <= |s.groups|
    ensures Numbering(b, WithGroups(b, s.groups, g), Given(s, g))
  {
    hide Numbering, WithGroup, Registered;
    if g == 0 {
      NothingNumbered(b);
    } else {
      GroupsNumbered(s, b, g - 1);
      GroupNumbered(s, b, WithGroups(b, s.groups, g - 1), g - 1);
    }
  }

  // ---- When names share an id ----

  ghost predicate OneNameEach(ids: map<string, nat>) {
    forall x, y :: x in ids && y in ids && ids[x] == ids[y] ==> x == y
  }

  /** The last registration of every unconditional name that is no group's has a position below the
      number of distinct unconditional names, or beyond the ids of all conditional tasks. */
  ghost predicate ClearOfGroups<D>(s: Source<D>) {
    var ids := PlainIds(s.plain, |s.plain|);
    forall x :: x in ids && x !in GroupNames(s) ==> ids[x] < |ids| || Built(s).next <= ids[x]
  }

  /** No two names share an id exactly when that is so. */
  lemma NamesShareIds<D>(s: Source<D>)
    requires Registered(s)
    ensures OneNameEach(Built(s).ids) <==> ClearOfGroups(s)
  {
    var b, c := PlainBuild(s), Built(s);
    GroupsNumbered(s, b, |s.groups|);
    PlainNumbered(s);
    hide *;
    SharedIds(b, c, Given(s, |s.groups|), GroupNames(s));
    BuiltIs(s);
  }

  lemma BuiltIs<D>(s: Source<D>)
    ensures Built(s) == WithGroups(PlainBuild(s), s.groups, |s.groups|)
  {
  }

  lemma PlainNumbered<D>(s: Source<D>)
    requires Registered(s)
    ensures var b := PlainBuild(s);
      && b.ids == PlainIds(s.plain, |s.plain|) && b.next == |b.ids| && OneNameEach(b.ids)
      && forall x :: x in b.ids ==> (x in Given(s, |s.groups|) <==> x in GroupNames(s))
  {
    var ids := PlainIds(s.plain, |s.plain|);
    forall x | x in ids ensures x in Given(s, |s.groups|) <==> x in GroupNames(s) {
      IdIsLast(s.plain, |s.plain|, x);
      GivenTargets(s, |s.groups|, x);
    }
    forall x, y | x in ids && y in ids && ids[x] == ids[y] ensures x == y {
      IdIsLast(s.plain, |s.plain|, x);
      IdIsLast(s.plain, |s.plain|, y);
    }
    hide PlainIds, PlainTasks, Given;
  }

  lemma SharedIds(b: Build, c: Build, names: set<string>, groups: set<string>)
    requires Numbering(b, c, names) && OneNameEach(b.ids) && forall x :: x in b.ids ==> (x in names <==> x in groups)
    ensures OneNameEach(c.ids) <==> forall x :: x in b.ids && x !in groups ==> b.ids[x] < b.next || c.next <= b.ids[x]
  {
    if x :| x in b.ids && x !in groups && b.next <= b.ids[x] < c.next {
      assert HasId(c.ids, names, b.ids[x]);
      var y :| y in names && y in c.ids && c.ids[y] == b.ids[x];
      assert x != y && c.ids[x] == c.ids[y];
    }
  }

  /** In particular they do when there are repetitions, at least as many conditional tasks, and the last
      name registered is no group's. */
  lemma RepetitionsShareIds<D>(s: Source<D>)
    requires Registered(s) && s.plain != [] && s.plain[|s.plain| - 1].name !in GroupNames(s)
    requires |PlainIds(s.plain, |s.plain|)| < |s.plain| <= Built(s).next
    ensures !OneNameEach(Built(s).ids)
  {
    var x := s.plain[|s.plain| - 1].name;
    NamesShareIds(s);
    IdIsLast(s.plain, |s.plain|, x);
    hide Built, OneNameEach, PlainIds;
    assert PlainIds(s.plain, |s.plain|)[x] == |s.plain| - 1;
  }

  // ---- What a shared id runs ----

  lemma PlainsHaveIds<D>(s: Source<D>)
    ensures forall j :: 0 <= j < |s.plain| ==> s.plain[j].name in PlainIds(s.plain, |s.plain|)
  {
  }

  /** Whatever other names have the id of an unconditional name, the function first registered under
      that name runs. */
  lemma SharedIdRuns<D>(s: Source<D>, x: string, i: nat)
    requires Registered(s) && FirstOf(s.plain, x, i)
    ensures var ids := PlainIds(s.plain, |s.plain|); var t := Built(s).tasks;
      x in ids && ids[x] in t && t[ids[x]] == User(PlainRef(i))
  {
    PlainsHaveIds(s);
    FirstRuns(s.plain, |s.plain|, x, i);
    GroupsNumbered(s, PlainBuild(s), |s.groups|);
    BuiltIs(s);
    hide PlainIds, PlainTasks, Given, WithGroups, Built;
  }

  /** A function a registered twice, then b, and a group of one alternative. */
  function Clashing<D>(f: D -> Reply<D>): Source<D> {
    Source([Plain("a", f, true), Plain("a", f, true), Plain("b", f, true)], [Group("g", [Alternative("c", f)])])
  }

  lemma ClashingPlain<D>(f: D -> Reply<D>)
    ensures var s := Clashing(f); Registered(s) && FirstOf(s.plain, "b", 2)
    ensures var s := Clashing(f); PlainIds(s.plain, 3) == map["a" := 1, "b" := 2] && PlainBuild(s).next == 2
    ensures PlainBuild(Clashing(f)).ids == map["a" := 1, "b" := 2]
  {
    var plain := Clashing(f).plain;
    assert PlainIds(plain, 0) == map[];
    assert PlainIds(plain, 1) == map["a" := 0];
    assert PlainIds(plain, 2) == map["a" := 1];
    assert |map["a" := 1, "b" := 2]| == 2;
    hide PlainTasks;
  }

  lemma ClashingGroup<D>(f: D -> Reply<D>)
    ensures var s := Clashing(f); var b := PlainBuild(s); var c := Built(s); var alt := AltName("g", 0);
      c.ids == b.ids[alt := b.next]["g" := b.next + 1] && c.next == b.next + 2
  {
    var s := Clashing(f);
    var b, group := PlainBuild(s), s.groups[0];
    BuiltIs(s);
    hide PlainBuild;
    assert WithGroups(b, s.groups, 0) == b && WithGroups(b, s.groups, 1) == WithGroup(b, group, 0);
    WithGroupStep(b, group, 0);
    WithAltsStep(b, group, 0, 1);
    NoAlts(b, group, 0);
  }

  /** For one: the alternative has the id of b, under which b's function runs. */
  lemma AlternativeIsShadowed<D>(f: D -> Reply<D>)
    ensures var s := Clashing(f); var c := Built(s); var alt := AltName("g", 0);
      && Registered(s) && !ClearOfGroups(s) && !OneNameEach(c.ids)
      && "b" in c.ids && alt in c.ids && c.ids["b"] == c.ids[alt] == 2
      && 2 in c.tasks && c.tasks[2] == User(PlainRef(2))
  {
    var s := Clashing(f);
    ClashingPlain(f);
    ClashingGroup(f);
    SharedIdRuns(s, "b", 2);
    NamesShareIds(s);
    var alt := AltName("g", 0);
    assert alt[1] == ':' && |alt| > 1;
    hide Built, PlainBuild, ClearOfGroups, PlainIds;
    assert Built(s).ids["b"] == 2 && Built(s).ids[alt] == 2;
  }
}
