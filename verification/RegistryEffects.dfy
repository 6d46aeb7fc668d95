/** What each act of the registry does to a sound registry: which one row or project it writes, and when it is refused. */
module RegistryEffects {
  import opened Wrappers
  import opened Registry
  import Ulid

  predicate Stands(w: World, machine: string, dir: string, i: nat) {
    i < |w.rows| && w.rows[i].machine == machine && w.rows[i].dir == dir
  }

  /** In a sound registry one clone at most stands in a directory. */
  lemma StandsAlone(w: World, machine: string, dir: string, merged: bool, i: nat)
    requires Inv(w, merged) && Stands(w, machine, dir, i)
    ensures CurrentAt(w.rows, machine, dir) == i
    ensures Candidates(w.rows, machine, dir) == [w.rows[i]]
    ensures forall j: nat :: j != i ==> !Stands(w, machine, dir, j)
  {
    CurrentCloneIsSingle(w, machine, dir, merged);
    forall j: nat | j != i ensures !Stands(w, machine, dir, j) {
      if j < i {
        assert Apart(w.rows[j], w.rows[i], merged);
      } else if j < |w.rows| {
        assert Apart(w.rows[i], w.rows[j], merged);
      }
    }
  }

  ghost predicate Vacant(w: World, machine: string, dir: string) {
    forall i: nat :: !Stands(w, machine, dir, i)
  }

  lemma {:induction false} NoCandidates(rows: seq<Row>, machine: string, dir: string)
    requires forall k :: 0 <= k < |rows| ==> !(rows[k].machine == machine && rows[k].dir == dir)
    ensures Candidates(rows, machine, dir) == []
  {
    if rows != [] {
      NoCandidates(rows[..|rows| - 1], machine, dir);
    }
  }

  lemma NoneStands(w: World, machine: string, dir: string)
    requires Vacant(w, machine, dir)
    ensures CurrentAt(w.rows, machine, dir) == |w.rows| && Candidates(w.rows, machine, dir) == []
  {
    assert !Stands(w, machine, dir, CurrentAt(w.rows, machine, dir));
    NoCandidates(w.rows, machine, dir);
  }

  // ---------- relink ----------

  /** Row i is a clone of this machine the locator means: by its id, or by its label in a project these remotes name. */
  ghost predicate Meant(w: World, machine: string, locator: string, remotes: Remotes, i: nat) {
    && i < |w.rows| && w.rows[i].machine == machine
    && if Ulid.Shaped(locator) then w.rows[i].id == locator
       else
         && w.rows[i].label_ == locator
         && exists k :: 0 <= k < |w.projects| && w.projects[k].slug == w.rows[i].slug
                        && Some(w.projects[k].remote) in remotes.Values
  }

  ghost function MeantBelow(w: World, machine: string, locator: string, remotes: Remotes, n: nat): set<nat> {
    set i: nat | i < n && Meant(w, machine, locator, remotes, i)
  }

  lemma MeantGrows(w: World, machine: string, locator: string, remotes: Remotes, n: nat)
    requires n < |w.rows|
    ensures Names(w, machine, locator, remotes, w.rows[n]) <==> Meant(w, machine, locator, remotes, n)
    ensures MeantBelow(w, machine, locator, remotes, n + 1) == MeantBelow(w, machine, locator, remotes, n)
            + if Meant(w, machine, locator, remotes, n) then {n} else {}
  {
  }

  lemma {:induction false} LocatedAreMeant(w: World, machine: string, locator: string, remotes: Remotes, n: nat)
    requires n <= |w.rows|
    ensures |Located(w, w.rows[..n], machine, locator, remotes)| == |MeantBelow(w, machine, locator, remotes, n)|
    ensures forall i :: i in MeantBelow(w, machine, locator, remotes, n) ==>
                        w.rows[i] in Located(w, w.rows[..n], machine, locator, remotes)
  {
    if n > 0 {
      LocatedAreMeant(w, machine, locator, remotes, n - 1);
      assert w.rows[..n][..n - 1] == w.rows[..n - 1];
      MeantGrows(w, machine, locator, remotes, n - 1);
    }
  }

  lemma LocatedWhole(w: World, machine: string, locator: string, remotes: Remotes)
    ensures |Located(w, w.rows, machine, locator, remotes)| == |MeantBelow(w, machine, locator, remotes, |w.rows|)|
    ensures forall i :: i in MeantBelow(w, machine, locator, remotes, |w.rows|) ==>
                        w.rows[i] in Located(w, w.rows, machine, locator, remotes)
  {
    LocatedAreMeant(w, machine, locator, remotes, |w.rows|);
    assert w.rows[..|w.rows|] == w.rows;
  }

  /** The locator means clone i and no other. */
  ghost predicate MeansOnly(w: World, machine: string, locator: string, remotes: Remotes, i: nat) {
    Meant(w, machine, locator, remotes, i) && forall j: nat :: Meant(w, machine, locator, remotes, j) ==> j == i
  }

  /** A locator that means no clone, or more than one, is refused and writes nothing. */
  lemma RelinkNeedsOne(w: World, machine: string, dir: string, locator: string, remotes: Remotes)
    requires forall i: nat :: !MeansOnly(w, machine, locator, remotes, i)
    ensures AfterRelink(w, machine, dir, locator, remotes)
         == (w, Refused(if exists i: nat :: Meant(w, machine, locator, remotes, i) then Ambiguous else UnknownLocator))
  {
    var meant := MeantBelow(w, machine, locator, remotes, |w.rows|);
    LocatedWhole(w, machine, locator, remotes);
    if i: nat :| Meant(w, machine, locator, remotes, i) {
      assert !MeansOnly(w, machine, locator, remotes, i);
      var j: nat :| Meant(w, machine, locator, remotes, j) && j != i;
      assert {i, j} <= meant;
      assert |meant - {i, j}| == |meant| - |{i, j}|;
    } else {
      assert meant == {};
    }
  }

  lemma OnlyItsId(w: World, merged: bool, i: nat)
    requires Inv(w, merged) && i < |w.rows|
    ensures forall j :: 0 <= j < |w.rows| && j != i ==> w.rows[j].id != w.rows[i].id
  {
    forall j | 0 <= j < |w.rows| && j != i ensures w.rows[j].id != w.rows[i].id {
      if j < i {
        assert Apart(w.rows[j], w.rows[i], merged);
      } else {
        assert Apart(w.rows[i], w.rows[j], merged);
      }
    }
  }

  lemma LocatedAlone(w: World, machine: string, locator: string, remotes: Remotes, i: nat)
    requires MeansOnly(w, machine, locator, remotes, i)
    ensures Located(w, w.rows, machine, locator, remotes) == [w.rows[i]]
  {
    LocatedWhole(w, machine, locator, remotes);
    assert MeantBelow(w, machine, locator, remotes, |w.rows|) == {i};
    assert w.rows[i] in Located(w, w.rows, machine, locator, remotes);
  }

  /** Another clone of the machine stands in the directory. */
  ghost predicate TakenFor(w: World, machine: string, dir: string, i: nat) {
    exists j: nat :: j != i && Stands(w, machine, dir, j)
  }

  lemma OccupiedIsTaken(w: World, machine: string, dir: string, merged: bool, i: nat)
    requires Inv(w, merged) && i < |w.rows|
    ensures Occupied(w.rows, machine, dir, w.rows[i].id) <==> TakenFor(w, machine, dir, i)
  {
    OnlyItsId(w, merged, i);
    if Occupied(w.rows, machine, dir, w.rows[i].id) {
      var j :| 0 <= j < |w.rows| && w.rows[j].machine == machine && w.rows[j].id != w.rows[i].id && w.rows[j].dir == dir;
      assert Stands(w, machine, dir, j);
    }
  }

  /**
   A locator that means exactly one clone: the act writes this directory into that clone's row and no other thing
   anywhere, and answers its id, and is refused exactly when another clone of the machine stands in the directory.
   */
  lemma RelinkMoves(w: World, machine: string, dir: string, locator: string, remotes: Remotes, merged: bool, i: nat)
    requires Inv(w, merged) && MeansOnly(w, machine, locator, remotes, i)
    ensures AfterRelink(w, machine, dir, locator, remotes)
         == if TakenFor(w, machine, dir, i) then (w, Refused(CloneKeyConflict))
            else (w.(rows := w.rows[i := w.rows[i].(dir := dir)]), Said(w.rows[i].id))
  {
    LocatedAlone(w, machine, locator, remotes, i);
    OccupiedIsTaken(w, machine, dir, merged, i);
    OnlyItsId(w, merged, i);
    assert Relinked(w.rows, w.rows[i].slug, machine, w.rows[i].id, dir) == w.rows[i := w.rows[i].(dir := dir)];
  }

  /** The clone of id now stands in the directory, and no other row has changed. */
  ghost predicate Moved(w: World, now: World, machine: string, dir: string, id: string, i: nat) {
    && i < |w.rows| && w.rows[i].machine == machine && w.rows[i].id == id
    && now == w.(rows := w.rows[i := w.rows[i].(dir := dir)])
  }

  /**
   After a relink that answered an id, the directory is that clone: it is current there, keeping its project and
   label, an init there names it and writes nothing, and where it was registered elsewhere before, nothing stands.
   */
  lemma RelinkIsCurrent(w: World, machine: string, dir: string, locator: string, remotes: Remotes, merged: bool,
                        id: string, again: InitRequest)
    requires Inv(w, merged) && AfterRelink(w, machine, dir, locator, remotes).1 == Said(id)
    requires again.machine == machine && again.dir == dir
    ensures var now := AfterRelink(w, machine, dir, locator, remotes).0;
            var i := CurrentAt(now.rows, machine, dir);
            && Moved(w, now, machine, dir, id, i)
            && AfterInit(now, again) == (now, Current(id))
            && (w.rows[i].dir != dir ==> Vacant(now, machine, w.rows[i].dir))
  {
    if forall i: nat :: !MeansOnly(w, machine, locator, remotes, i) {
      RelinkNeedsOne(w, machine, dir, locator, remotes);
      assert false;
    }
    var i: nat :| MeansOnly(w, machine, locator, remotes, i);
    RelinkMoves(w, machine, dir, locator, remotes, merged, i);
    RelinkKeeps(w, machine, dir, locator, remotes, merged);
    StandsAlone(AfterRelink(w, machine, dir, locator, remotes).0, machine, dir, merged, i);
    if w.rows[i].dir != dir {
      LeavesVacant(w, machine, dir, merged, i);
    }
  }

  lemma LeavesVacant(w: World, machine: string, dir: string, merged: bool, i: nat)
    requires Inv(w, merged) && i < |w.rows| && w.rows[i].machine == machine && w.rows[i].dir != dir
    ensures Vacant(w.(rows := w.rows[i := w.rows[i].(dir := dir)]), machine, w.rows[i].dir)
  {
    StandsAlone(w, machine, w.rows[i].dir, merged, i);
    var now := w.(rows := w.rows[i := w.rows[i].(dir := dir)]);
    forall j: nat ensures !Stands(now, machine, w.rows[i].dir, j) {
      assert j != i ==> !Stands(w, machine, w.rows[i].dir, j);
    }
  }

  // ---------- label ----------

  /**
   A relabel writes the clone that stands in the directory and nothing else, and is refused exactly for a label
   shaped like an identity or one another clone of its project carries.
   */
  lemma LabelSets(w: World, machine: string, dir: string, label_: string, merged: bool, i: nat)
    requires Inv(w, merged) && Stands(w, machine, dir, i)
    ensures AfterLabel(w, machine, dir, label_)
         == if Ulid.Shaped(label_) then (w, Refused(LabelShaped))
            else if w.rows[i].label_ != label_
                    && exists j :: 0 <= j < |w.rows| && w.rows[j].slug == w.rows[i].slug && w.rows[j].label_ == label_
            then (w, Refused(LabelCollision))
            else (w.(rows := w.rows[i := w.rows[i].(label_ := label_)]), Said(label_))
  {
    StandsAlone(w, machine, dir, merged, i);
    OnlyItsId(w, merged, i);
    var c := w.rows[i];
    assert w.rows[i := c.(label_ := c.label_)] == w.rows;
    assert Relabelled(w.rows, c.slug, machine, c.id, label_) == w.rows[i := c.(label_ := label_)];
    forall j | 0 <= j < |w.rows| && w.rows[j].slug == c.slug && j != i ensures w.rows[j].label_ in OtherLabels(w.rows, c) {
      OtherLabelHeld(w.rows, c, j);
    }
  }

  // ---------- adopt ----------

  /**
   An adoption gives the remote its identity name stands for to the project of the clone that stands there, where it
   has none, and writes nothing else; it is refused exactly for a remote that is missing, cannot be read, or is
   another project's.
   */
  lemma AdoptClaims(w: World, machine: string, dir: string, remotes: Remotes, merged: bool, i: nat, k: nat)
    requires Inv(w, merged) && Stands(w, machine, dir, i)
    requires k < |w.projects| && w.projects[k].slug == w.rows[i].slug
    ensures var p := w.projects[k];
            var name := if p.identityRemote == "" then "origin" else p.identityRemote;
            AfterAdopt(w, machine, dir, remotes)
            == if p.remote != "" then (w, Said(p.remote))
               else if name !in remotes then (w, Refused(NoIdentityRemote))
               else if remotes[name] == None then (w, Refused(UnparseableRemote))
               else if exists j :: 0 <= j < |w.projects| && j != k && w.projects[j].remote == remotes[name].value
               then (w, Refused(RepoKeyConflict))
               else (w.(projects := w.projects[k := p.(remote := remotes[name].value, identityRemote := name)]),
                     Said(remotes[name].value))
  {
    var p := w.projects[k];
    StandsAlone(w, machine, dir, merged, i);
    forall j | 0 <= j < |w.projects| && j != k ensures w.projects[j].slug != p.slug && w.projects[j].id != p.id {
      assert if j < k then Distinct(w.projects[j], p) else Distinct(p, w.projects[j]);
    }
    assert BySlug(w.projects, p.slug) == k;
    forall remote, name
      ensures Adopted(w.projects, p.slug, remote, name) == w.projects[k := p.(remote := remote, identityRemote := name)]
    {
    }
    forall remote
      ensures Claimed(w.projects, remote, p.id)
              <==> exists j :: 0 <= j < |w.projects| && j != k && w.projects[j].remote == remote
    {
    }
  }

  /** Where no clone stands, label and adopt are refused and write nothing. */
  lemma NoCloneNoAct(w: World, machine: string, dir: string, label_: string, remotes: Remotes)
    requires Vacant(w, machine, dir)
    ensures AfterLabel(w, machine, dir, label_) == (w, Refused(if Ulid.Shaped(label_) then LabelShaped else UnknownClone))
    ensures AfterAdopt(w, machine, dir, remotes) == (w, Refused(UnknownClone))
  {
    NoneStands(w, machine, dir);
  }

  // ---------- init ----------

  /**
   An init that registers adds exactly one clone, here and under the minted id: to the project the identity remote
   names, or to the one project it makes for it, under a slug no other has; with the label asked for or, unless a
   clone of the project has it, the directory's own name.
   */
  lemma InitRegisters(w: World, r: InitRequest)
    requires AfterInit(w, r).1 == Registered(r.cloneId) || AfterInit(w, r).1 == Created(r.cloneId)
    requires Vacant(w, r.machine, r.dir)
    ensures var now := AfterInit(w, r).0;
            var name := if r.identityFlag == "" then "origin" else r.identityFlag;
            && |now.rows| == |w.rows| + 1 && now.rows[..|w.rows|] == w.rows
            && var c := now.rows[|w.rows|];
            && c == Row(c.slug, r.machine, r.cloneId, r.dir, c.label_)
            && (|r.remotes| != 0 ==> name in r.remotes && r.remotes[name].Some?)
            && var remote := if |r.remotes| == 0 then "" else r.remotes[name].value;
            && (if AfterInit(w, r).1.Registered? then
                  && now.projects == w.projects && remote != ""
                  && exists k :: 0 <= k < |w.projects| && w.projects[k].slug == c.slug && w.projects[k].remote == remote
                else
                  && now.projects == w.projects + [Project(r.projectId, c.slug, remote, name)]
                  && c.slug == (if r.slugFlag == "" then r.base else r.slugFlag)
                  && forall k :: 0 <= k < |w.projects| ==>
                       w.projects[k].slug != c.slug && (remote != "" ==> w.projects[k].remote != remote))
  {
    NoneStands(w, r.machine, r.dir);
  }

  /** A clone of the project carries the label. */
  predicate Carried(w: World, slug: string, label_: string) {
    exists i :: 0 <= i < |w.rows| && w.rows[i].slug == slug && w.rows[i].label_ == label_
  }

  lemma LabelsAreCarried(w: World, slug: string)
    ensures forall label_ :: label_ in Labels(w.rows, slug) <==> Carried(w, slug, label_)
  {
  }

  /** The remotes give no identity: what init answers then. */
  function NoIdentity(r: InitRequest): Option<Code> {
    var name := if r.identityFlag == "" then "origin" else r.identityFlag;
    if r.remotes == map[] then None
    else if name !in r.remotes then Some(if r.identityFlag == "" then NoIdentityRemote else UnresolvableRemote)
    else if r.remotes[name] == None then Some(UnparseableRemote)
    else None
  }

  /** The label cannot be had, in a project that carries the labels taken. */
  ghost function NoLabel(r: InitRequest, taken: set<string>): Option<Code> {
    if r.labelFlag != "" then
      if Ulid.Shaped(r.labelFlag) then Some(LabelShaped) else if r.labelFlag in taken then Some(LabelCollision) else None
    else if r.base in taken && (r.parent in {"", ".", r.base} || r.parent in taken) && r.base + "-" + r.parent in taken
    then Some(LabelCollision) else None
  }

  lemma CloneAnswers(w: World, r: InitRequest, slug: string, taken: set<string>, created: bool)
    ensures WithClone(w, r, slug, taken, created).1
         == if NoLabel(r, taken).Some? then Refused(NoLabel(r, taken).value)
            else if created then Created(r.cloneId) else Registered(r.cloneId)
  {
  }

  /**
   An init where no clone stands is refused for nothing else than this, in this order: remotes that give no identity;
   for a project that is not there yet, a slug shaped like an identity or in use; a label that cannot be had.
   */
  lemma InitRefusedExactly(w: World, r: InitRequest)
    requires Vacant(w, r.machine, r.dir)
    ensures var answer := AfterInit(w, r).1;
            var remote := if r.remotes == map[] || NoIdentity(r).Some? then ""
                          else r.remotes[if r.identityFlag == "" then "origin" else r.identityFlag].value;
            var k, slug := ByRemote(w.projects, remote), if r.slugFlag == "" then r.base else r.slugFlag;
            if NoIdentity(r).Some? then answer == Refused(NoIdentity(r).value)
            else if remote != "" && k < |w.projects| then
              var none := NoLabel(r, Labels(w.rows, w.projects[k].slug));
              answer == if none.Some? then Refused(none.value) else Registered(r.cloneId)
            else if r.slugFlag != "" && Ulid.Shaped(slug) then answer == Refused(SlugShaped)
            else if Owned(w.projects, slug) then answer == Refused(SlugCollision)
            else
              answer == if NoLabel(r, {}).Some? then Refused(NoLabel(r, {}).value) else Created(r.cloneId)
  {
    NoneStands(w, r.machine, r.dir);
    var slug := if r.slugFlag == "" then r.base else r.slugFlag;
    assert Owned(w.projects, slug) <==> BySlug(w.projects, slug) < |w.projects|;
    assert |r.remotes| == 0 <==> r.remotes == map[];
    if NoIdentity(r) == None {
      var (remote, name) := IdentityRemote(r.remotes, r.identityFlag).value;
      var k := ByRemote(w.projects, remote);
      if remote != "" && k < |w.projects| {
        CloneAnswers(w, r, w.projects[k].slug, Labels(w.rows, w.projects[k].slug), false);
      } else {
        CloneAnswers(w.(projects := w.projects + [Project(r.projectId, slug, remote, name)]), r, slug, {}, true);
      }
    }
  }

  lemma LadderOf(base: string, parent: string, flag: string, taken: set<string>)
    requires LabelFor(base, parent, flag, taken).Ok?
    ensures LabelFor(base, parent, flag, taken).value
         == if flag != "" then flag else if base !in taken then base
            else if parent !in {"", ".", base} && parent !in taken then parent else base + "-" + parent
  {
  }

  /** The label: the one asked for, or the directory's name, or where a clone of the project has that, the parent's, or both. */
  lemma InitLabels(w: World, r: InitRequest, merged: bool)
    requires Inv(w, merged) && Vacant(w, r.machine, r.dir)
    requires AfterInit(w, r).1 == Registered(r.cloneId) || AfterInit(w, r).1 == Created(r.cloneId)
    ensures var c := AfterInit(w, r).0.rows[|w.rows|];
            && !Carried(w, c.slug, c.label_)
            && (r.labelFlag != "" ==> c.label_ == r.labelFlag)
            && (r.labelFlag == "" && !Carried(w, c.slug, r.base) ==> c.label_ == r.base)
            && (r.labelFlag == "" && Carried(w, c.slug, r.base) ==>
                  c.label_ == if r.parent !in {"", ".", r.base} && !Carried(w, c.slug, r.parent) then r.parent
                              else r.base + "-" + r.parent)
  {
    NoneStands(w, r.machine, r.dir);
    InitRegisters(w, r);
    var c := AfterInit(w, r).0.rows[|w.rows|];
    if AfterInit(w, r).1.Created? {
      forall i | 0 <= i < |w.rows| ensures w.rows[i].slug != c.slug {
        assert Owned(w.projects, w.rows[i].slug);
      }
      LadderOf(r.base, r.parent, r.labelFlag, {});
    } else {
      LabelsAreCarried(w, c.slug);
      LadderOf(r.base, r.parent, r.labelFlag, Labels(w.rows, c.slug));
    }
  }
}
