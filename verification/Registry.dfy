/**
 The registry of projects and clones, and the four acts that write it: init, label, adopt, relink. A clone row
 carries the slug of its project and the machine of the file it stands in.
 */
module Registry {
  import opened Wrappers
  import Ulid

  /** remote "" is a project known only locally. */
  datatype Project = Project(id: string, slug: string, remote: string, identityRemote: string)
  datatype Row = Row(slug: string, machine: string, id: string, dir: string, label_: string)
  datatype World = World(projects: seq<Project>, rows: seq<Row>)

  /** A clone's remotes by name, normalised; None is a URL no key can be made of. */
  type Remotes = map<string, Option<string>>

  datatype Code =
    | UnresolvableRemote | NoIdentityRemote | UnparseableRemote | SlugShaped | SlugCollision | LabelShaped
    | LabelCollision | UnknownClone | UnknownLocator | Ambiguous | CloneKeyConflict | RepoKeyConflict

  datatype Answer =
    | Current(id: string)
    | Registered(id: string)
    | Created(id: string)
    | Said(text: string)
    | Refused(code: Code)

  datatype Outcome<T> = Ok(value: T) | Err(code: Code)

  /**
   What init is called with. base and parent are the owning clone directory's last two path elements; the two
   identities are the ones the source would mint next.
   */
  datatype InitRequest = InitRequest(machine: string, dir: string, base: string, parent: string, remotes: Remotes,
                                     identityFlag: string, slugFlag: string, labelFlag: string,
                                     projectId: string, cloneId: string)

  // ---------- the invariant ----------

  /** merged is a journal several machines' files came together in: there, labels are told apart only per machine. */
  ghost predicate Inv(w: World, merged: bool) {
    && ProjectsApart(w.projects)
    && RowsApart(w.rows, merged)
    && forall i :: 0 <= i < |w.rows| ==> Owned(w.projects, w.rows[i].slug)
  }

  predicate Owned(ps: seq<Project>, slug: string) {
    exists k :: 0 <= k < |ps| && ps[k].slug == slug
  }

  /** Slugs, ids and non-empty remotes are unique among projects. */
  ghost predicate ProjectsApart(ps: seq<Project>) {
    forall i, j :: 0 <= i < j < |ps| ==> Distinct(ps[i], ps[j])
  }

  predicate Distinct(p: Project, q: Project) {
    p.slug != q.slug && p.id != q.id && (p.remote != "" ==> p.remote != q.remote)
  }

  /** One clone per machine and directory, labels unique within a project (on one machine, when merged), ids unique. */
  ghost predicate RowsApart(rows: seq<Row>, merged: bool) {
    forall i, j :: 0 <= i < j < |rows| ==> Apart(rows[i], rows[j], merged)
  }

  predicate Apart(a: Row, b: Row, merged: bool) {
    && !(a.machine == b.machine && a.dir == b.dir)
    && !(a.slug == b.slug && a.label_ == b.label_ && (merged ==> a.machine == b.machine))
    && a.id != b.id
  }

  // ---------- lookups ----------

  function CurrentAt(rows: seq<Row>, machine: string, dir: string): (i: nat)
    ensures i <= |rows|
    ensures i < |rows| ==> rows[i].machine == machine && rows[i].dir == dir
    ensures forall k :: 0 <= k < i ==> !(rows[k].machine == machine && rows[k].dir == dir)
  {
    if rows == [] || (rows[0].machine == machine && rows[0].dir == dir) then 0
    else 1 + CurrentAt(rows[1..], machine, dir)
  }

  function ByRemote(ps: seq<Project>, remote: string): (i: nat)
    ensures i <= |ps|
    ensures i < |ps| ==> ps[i].remote == remote
    ensures forall k :: 0 <= k < i ==> ps[k].remote != remote
  {
    if ps == [] || ps[0].remote == remote then 0 else 1 + ByRemote(ps[1..], remote)
  }

  function BySlug(ps: seq<Project>, slug: string): (i: nat)
    ensures i <= |ps|
    ensures i < |ps| ==> ps[i].slug == slug
    ensures forall k :: 0 <= k < i ==> ps[k].slug != slug
  {
    if ps == [] || ps[0].slug == slug then 0 else 1 + BySlug(ps[1..], slug)
  }

  /** The labels in use in a project, on any machine. */
  function Labels(rows: seq<Row>, slug: string): set<string> {
    set i | 0 <= i < |rows| && rows[i].slug == slug :: rows[i].label_
  }

  /** The rows a directory on a machine could be. */
  function Candidates(rows: seq<Row>, machine: string, dir: string): (found: seq<Row>)
    ensures forall r :: r in found ==> r in rows && r.machine == machine && r.dir == dir
    ensures forall r :: r in rows && r.machine == machine && r.dir == dir ==> r in found
  {
    if rows == [] then []
    else
      var front, r := Candidates(rows[..|rows| - 1], machine, dir), rows[|rows| - 1];
      if r.machine == machine && r.dir == dir then front + [r] else front
  }

  // ---------- init ----------

  /** The remote that names the project: none at all is the local-only case, a missing one is refused. */
  function IdentityRemote(remotes: Remotes, flag: string): Outcome<(string, string)> {
    var name := if flag == "" then "origin" else flag;
    if |remotes| == 0 then Ok(("", name))
    else if name !in remotes then Err(if flag != "" then UnresolvableRemote else NoIdentityRemote)
    else if remotes[name] == None then Err(UnparseableRemote)
    else Ok((remotes[name].value, name))
  }

  ghost function SlugFor(base: string, flag: string): Outcome<string> {
    if flag == "" then Ok(base) else if Ulid.Shaped(flag) then Err(SlugShaped) else Ok(flag)
  }

  /** The collision ladder: the parent's name, then base-parent, then nothing. */
  function SuggestLabel(base: string, parent: string, taken: set<string>): (s: Option<string>)
    ensures s.Some? ==> s.value !in taken
    ensures s == None ==> base + "-" + parent in taken
  {
    if parent != "" && parent != "." && parent != base && parent !in taken then Some(parent)
    else if base + "-" + parent !in taken then Some(base + "-" + parent)
    else None
  }

  ghost function LabelFor(base: string, parent: string, flag: string, taken: set<string>): (r: Outcome<string>)
    ensures r.Ok? ==> r.value !in taken
  {
    if flag != "" then
      if Ulid.Shaped(flag) then Err(LabelShaped) else if flag in taken then Err(LabelCollision) else Ok(flag)
    else if base !in taken then Ok(base)
    else
      var s := SuggestLabel(base, parent, taken);
      if s.Some? then Ok(s.value) else Err(LabelCollision)
  }

  ghost function WithClone(w: World, r: InitRequest, slug: string, taken: set<string>, created: bool): (World, Answer) {
    match LabelFor(r.base, r.parent, r.labelFlag, taken)
    case Err(code) => (w, Refused(code))
    case Ok(label_) =>
      (w.(rows := w.rows + [Row(slug, r.machine, r.cloneId, r.dir, label_)]),
       if created then Created(r.cloneId) else Registered(r.cloneId))
  }

  ghost function AfterInit(w: World, r: InitRequest): (World, Answer) {
    var i := CurrentAt(w.rows, r.machine, r.dir);
    if i < |w.rows| then (w, Current(w.rows[i].id))
    else match IdentityRemote(r.remotes, r.identityFlag)
      case Err(code) => (w, Refused(code))
      case Ok((remote, name)) =>
        var k := ByRemote(w.projects, remote);
        if remote != "" && k < |w.projects| then
          WithClone(w, r, w.projects[k].slug, Labels(w.rows, w.projects[k].slug), false)
        else match SlugFor(r.base, r.slugFlag)
          case Err(code) => (w, Refused(code))
          case Ok(slug) =>
            if BySlug(w.projects, slug) < |w.projects| then (w, Refused(SlugCollision))
            else
              WithClone(w.(projects := w.projects + [Project(r.projectId, slug, remote, name)]), r, slug, {}, true)
  }

  // ---------- label, adopt, relink ----------

  /** A file's rows with one field of one clone set. */
  function Relabelled(rows: seq<Row>, slug: string, machine: string, id: string, label_: string): seq<Row> {
    seq(|rows|, i requires 0 <= i < |rows| =>
      if rows[i].slug == slug && rows[i].machine == machine && rows[i].id == id
      then rows[i].(label_ := label_) else rows[i])
  }

  function Relinked(rows: seq<Row>, slug: string, machine: string, id: string, dir: string): seq<Row> {
    seq(|rows|, i requires 0 <= i < |rows| =>
      if rows[i].slug == slug && rows[i].machine == machine && rows[i].id == id
      then rows[i].(dir := dir) else rows[i])
  }

  /** The labels of a project's other clones. */
  function OtherLabels(rows: seq<Row>, c: Row): set<string> {
    set i | 0 <= i < |rows| && rows[i].slug == c.slug && (rows[i].id != c.id || rows[i].machine != c.machine) ::
      rows[i].label_
  }

  ghost function AfterLabel(w: World, machine: string, dir: string, label_: string): (World, Answer) {
    var found := Candidates(w.rows, machine, dir);
    if Ulid.Shaped(label_) then (w, Refused(LabelShaped))
    else if |found| > 1 then (w, Refused(Ambiguous))
    else if |found| == 0 then (w, Refused(UnknownClone))
    else
      var c := found[0];
      if c.label_ == label_ then (w, Said(label_))
      else if label_ in OtherLabels(w.rows, c) then (w, Refused(LabelCollision))
      else (w.(rows := Relabelled(w.rows, c.slug, machine, c.id, label_)), Said(label_))
  }

  /** Another project claims the remote. */
  predicate Claimed(ps: seq<Project>, remote: string, id: string) {
    exists k :: 0 <= k < |ps| && ps[k].remote == remote && ps[k].id != id
  }

  function Adopted(ps: seq<Project>, slug: string, remote: string, name: string): seq<Project> {
    seq(|ps|, k requires 0 <= k < |ps| =>
      if ps[k].slug == slug then ps[k].(remote := remote, identityRemote := name) else ps[k])
  }

  function AfterAdopt(w: World, machine: string, dir: string, remotes: Remotes): (World, Answer) {
    var found := Candidates(w.rows, machine, dir);
    if |found| > 1 then (w, Refused(Ambiguous))
    else if |found| == 0 then (w, Refused(UnknownClone))
    else
      var k := BySlug(w.projects, found[0].slug);
      if k == |w.projects| then (w, Refused(UnknownClone))
      else AfterAdoptOf(w, w.projects[k], remotes)
  }

  function AfterAdoptOf(w: World, p: Project, remotes: Remotes): (World, Answer) {
    var name := if p.identityRemote == "" then "origin" else p.identityRemote;
    if p.remote != "" then (w, Said(p.remote))
    else if name !in remotes then (w, Refused(NoIdentityRemote))
    else if remotes[name] == None then (w, Refused(UnparseableRemote))
    else if Claimed(w.projects, remotes[name].value, p.id) then (w, Refused(RepoKeyConflict))
    else (w.(projects := Adopted(w.projects, p.slug, remotes[name].value, name)), Said(remotes[name].value))
  }

  /** A project the directory's remotes name. */
  predicate NamedProject(ps: seq<Project>, slug: string, remotes: Remotes) {
    exists k :: 0 <= k < |ps| && ps[k].slug == slug && Some(ps[k].remote) in remotes.Values
  }

  /** A clone a locator names: by id, or by label among the projects this directory's remotes name. */
  ghost predicate Names(w: World, machine: string, locator: string, remotes: Remotes, r: Row) {
    && r.machine == machine
    && if Ulid.Shaped(locator) then r.id == locator
       else r.label_ == locator && NamedProject(w.projects, r.slug, remotes)
  }

  ghost function Located(w: World, rows: seq<Row>, machine: string, locator: string, remotes: Remotes): (found: seq<Row>)
    ensures forall r :: r in found ==> r in rows && Names(w, machine, locator, remotes, r)
  {
    if rows == [] then []
    else
      var front, r := Located(w, rows[..|rows| - 1], machine, locator, remotes), rows[|rows| - 1];
      if Names(w, machine, locator, remotes, r) then front + [r] else front
  }

  /** Another clone of this machine already stands in the directory. */
  predicate Occupied(rows: seq<Row>, machine: string, dir: string, id: string) {
    exists i :: 0 <= i < |rows| && rows[i].machine == machine && rows[i].id != id && rows[i].dir == dir
  }

  ghost function AfterRelink(w: World, machine: string, dir: string, locator: string, remotes: Remotes): (World, Answer) {
    var found := Located(w, w.rows, machine, locator, remotes);
    if |found| == 0 then (w, Refused(UnknownLocator))
    else if |found| > 1 then (w, Refused(Ambiguous))
    else if Occupied(w.rows, machine, dir, found[0].id) then (w, Refused(CloneKeyConflict))
    else (w.(rows := Relinked(w.rows, found[0].slug, machine, found[0].id, dir)), Said(found[0].id))
  }

  // ---------- every act keeps the invariant ----------

  datatype Act =
    | Init(request: InitRequest)
    | Label(machine: string, dir: string, label_: string)
    | Adopt(machine: string, dir: string, remotes: Remotes)
    | Relink(machine: string, dir: string, locator: string, remotes: Remotes)

  ghost function After(w: World, act: Act): (World, Answer) {
    match act
    case Init(r) => AfterInit(w, r)
    case Label(machine, dir, label_) => AfterLabel(w, machine, dir, label_)
    case Adopt(machine, dir, remotes) => AfterAdopt(w, machine, dir, remotes)
    case Relink(machine, dir, locator, remotes) => AfterRelink(w, machine, dir, locator, remotes)
  }

  /** Identities are minted unused, and a normalised remote is never empty. */
  ghost predicate Fair(w: World, act: Act) {
    match act
    case Init(r) =>
      && (forall k :: 0 <= k < |w.projects| ==> w.projects[k].id != r.projectId)
      && (forall i :: 0 <= i < |w.rows| ==> w.rows[i].id != r.cloneId)
    case Adopt(_, _, remotes) => Some("") !in remotes.Values
    case Label(_, _, _) => true
    case Relink(_, _, _, _) => true
  }

  lemma AddClone(w: World, r: InitRequest, slug: string, taken: set<string>, created: bool, merged: bool)
    requires Inv(w, merged) && CurrentAt(w.rows, r.machine, r.dir) == |w.rows|
    requires forall i :: 0 <= i < |w.rows| ==> w.rows[i].id != r.cloneId
    requires Owned(w.projects, slug)
    requires Labels(w.rows, slug) <= taken
    ensures Inv(WithClone(w, r, slug, taken, created).0, merged)
  {
    var now := WithClone(w, r, slug, taken, created).0;
    forall i, j | 0 <= i < j < |now.rows| ensures Apart(now.rows[i], now.rows[j], merged) {
      if j < |w.rows| {
        assert Apart(w.rows[i], w.rows[j], merged);
      } else {
        assert w.rows[i].slug == slug ==> w.rows[i].label_ in taken;
      }
    }
  }

  lemma AddProject(w: World, p: Project, merged: bool)
    requires Inv(w, merged) && BySlug(w.projects, p.slug) == |w.projects|
    requires forall k :: 0 <= k < |w.projects| ==> w.projects[k].id != p.id
    requires p.remote != "" ==> ByRemote(w.projects, p.remote) == |w.projects|
    ensures Inv(w.(projects := w.projects + [p]), merged) && Labels(w.rows, p.slug) == {}
  {
    var ps := w.projects + [p];
    forall i, j | 0 <= i < j < |ps| ensures Distinct(ps[i], ps[j]) {
      if j < |w.projects| {
        assert Distinct(w.projects[i], w.projects[j]);
      }
    }
    forall i | 0 <= i < |w.rows| ensures Owned(ps, w.rows[i].slug) {
      var k :| 0 <= k < |w.projects| && w.projects[k].slug == w.rows[i].slug;
      assert ps[k].slug == w.rows[i].slug;
    }
  }

  lemma InitKeeps(w: World, r: InitRequest, merged: bool)
    requires Inv(w, merged) && Fair(w, Init(r))
    ensures Inv(AfterInit(w, r).0, merged)
  {
    if CurrentAt(w.rows, r.machine, r.dir) == |w.rows| && IdentityRemote(r.remotes, r.identityFlag).Ok? {
      var (remote, name) := IdentityRemote(r.remotes, r.identityFlag).value;
      var k := ByRemote(w.projects, remote);
      if remote != "" && k < |w.projects| {
        AddClone(w, r, w.projects[k].slug, Labels(w.rows, w.projects[k].slug), false, merged);
      } else if SlugFor(r.base, r.slugFlag).Ok? {
        var slug := SlugFor(r.base, r.slugFlag).value;
        if BySlug(w.projects, slug) == |w.projects| {
          var p := Project(r.projectId, slug, remote, name);
          AddProject(w, p, merged);
          var now := w.(projects := w.projects + [p]);
          assert now.projects[|w.projects|].slug == slug;
          AddClone(now, r, slug, {}, true, merged);
        }
      }
    }
  }

  lemma {:induction false} OneCandidate(rows: seq<Row>, machine: string, dir: string, merged: bool)
    requires RowsApart(rows, merged)
    ensures |Candidates(rows, machine, dir)| <= 1
  {
    if rows != [] {
      var front, r := rows[..|rows| - 1], rows[|rows| - 1];
      OneCandidate(front, machine, dir, merged);
      var found := Candidates(front, machine, dir);
      if found != [] {
        assert found[0] in found;
        var i :| 0 <= i < |front| && front[i] == found[0];
        assert Apart(rows[i], rows[|rows| - 1], merged);
      }
    }
  }

  /** Two machines' files come together in one: what held on each still holds per machine. */
  lemma MergedFilesStayApart(a: seq<Row>, b: seq<Row>)
    requires RowsApart(a, true) && RowsApart(b, true)
    requires forall i, j :: 0 <= i < |a| && 0 <= j < |b| ==> a[i].machine != b[j].machine && a[i].id != b[j].id
    ensures RowsApart(a + b, true)
  {
    var all := a + b;
    forall i, j | 0 <= i < j < |all| ensures Apart(all[i], all[j], true) {
      if j < |a| {
        assert Apart(a[i], a[j], true);
      } else if i >= |a| {
        assert Apart(b[i - |a|], b[j - |a|], true);
      } else {
        assert a[i].machine != b[j - |a|].machine;
      }
    }
  }

  /** Which clone a directory is has one answer: no act ever meets an ambiguous current clone. */
  lemma CurrentCloneIsSingle(w: World, machine: string, dir: string, merged: bool)
    requires Inv(w, merged)
    ensures |Candidates(w.rows, machine, dir)| <= 1
    ensures CurrentAt(w.rows, machine, dir) < |w.rows| <==> |Candidates(w.rows, machine, dir)| == 1
    ensures CurrentAt(w.rows, machine, dir) < |w.rows| ==>
              Candidates(w.rows, machine, dir) == [w.rows[CurrentAt(w.rows, machine, dir)]]
  {
    OneCandidate(w.rows, machine, dir, merged);
    var found, i := Candidates(w.rows, machine, dir), CurrentAt(w.rows, machine, dir);
    if |found| == 1 {
      assert found[0] in found;
    }
    if i < |w.rows| {
      assert w.rows[i] in found;
    }
  }

  lemma LabelKeeps(w: World, machine: string, dir: string, label_: string, merged: bool)
    requires Inv(w, merged)
    ensures Inv(AfterLabel(w, machine, dir, label_).0, merged)
  {
    var found := Candidates(w.rows, machine, dir);
    if |found| == 1 && label_ !in OtherLabels(w.rows, found[0]) {
      var c := found[0];
      assert c in found;
      var rows := Relabelled(w.rows, c.slug, machine, c.id, label_);
      forall i, j | 0 <= i < j < |rows| ensures Apart(rows[i], rows[j], merged) {
        assert Apart(w.rows[i], w.rows[j], merged);
        OtherLabelHeld(w.rows, c, i);
        OtherLabelHeld(w.rows, c, j);
      }
    }
  }

  lemma OtherLabelHeld(rows: seq<Row>, c: Row, i: nat)
    requires i < |rows|
    ensures rows[i].slug == c.slug && (rows[i].id != c.id || rows[i].machine != c.machine) ==>
              rows[i].label_ in OtherLabels(rows, c)
  {
  }

  lemma AdoptKeeps(w: World, machine: string, dir: string, remotes: Remotes, merged: bool)
    requires Inv(w, merged)
    ensures Inv(AfterAdopt(w, machine, dir, remotes).0, merged)
  {
    var found := Candidates(w.rows, machine, dir);
    if |found| == 1 && BySlug(w.projects, found[0].slug) < |w.projects| {
      AdoptOfKeeps(w, BySlug(w.projects, found[0].slug), remotes, merged);
    }
  }

  lemma AdoptOfKeeps(w: World, k: nat, remotes: Remotes, merged: bool)
    requires Inv(w, merged) && k < |w.projects|
    ensures Inv(AfterAdoptOf(w, w.projects[k], remotes).0, merged)
  {
    var p := w.projects[k];
    var now := AfterAdoptOf(w, p, remotes).0;
    forall i, j | 0 <= i < j < |now.projects| ensures Distinct(now.projects[i], now.projects[j]) {
      assert Distinct(w.projects[i], w.projects[j]);
    }
    forall i | 0 <= i < |now.rows| ensures Owned(now.projects, now.rows[i].slug) {
      assert Owned(w.projects, w.rows[i].slug);
      var l :| 0 <= l < |w.projects| && w.projects[l].slug == w.rows[i].slug;
      assert now.projects[l].slug == w.projects[l].slug;
    }
  }

  lemma RelinkKeeps(w: World, machine: string, dir: string, locator: string, remotes: Remotes, merged: bool)
    requires Inv(w, merged)
    ensures Inv(AfterRelink(w, machine, dir, locator, remotes).0, merged)
  {
    var found := Located(w, w.rows, machine, locator, remotes);
    if |found| == 1 && !Occupied(w.rows, machine, dir, found[0].id) {
      var c := found[0];
      var rows := Relinked(w.rows, c.slug, machine, c.id, dir);
      forall i, j | 0 <= i < j < |rows| ensures Apart(rows[i], rows[j], merged) {
        assert Apart(w.rows[i], w.rows[j], merged);
      }
    }
  }

  ghost function Run(w: World, acts: seq<Act>): World {
    if acts == [] then w else After(Run(w, acts[..|acts| - 1]), acts[|acts| - 1]).0
  }

  /** Every run of the four acts, from an empty journal or any sound one, keeps the registry sound. */
  lemma {:induction false} RunsKeep(w: World, acts: seq<Act>, merged: bool)
    requires Inv(w, merged)
    requires forall n :: 0 <= n < |acts| ==> Fair(Run(w, acts[..n]), acts[n])
    ensures Inv(Run(w, acts), merged)
    decreases |acts|
  {
    if acts != [] {
      var front := acts[..|acts| - 1];
      forall n | 0 <= n < |front| ensures Fair(Run(w, front[..n]), front[n]) {
        assert front[..n] == acts[..n];
      }
      RunsKeep(w, front, merged);
      ActKeeps(Run(w, front), acts[|acts| - 1], merged);
    }
  }

  lemma ActKeeps(w: World, act: Act, merged: bool)
    requires Inv(w, merged) && Fair(w, act)
    ensures Inv(After(w, act).0, merged)
  {
    match act
    case Init(r) => InitKeeps(w, r, merged);
    case Label(machine, dir, label_) => LabelKeeps(w, machine, dir, label_, merged);
    case Adopt(machine, dir, remotes) => AdoptKeeps(w, machine, dir, remotes, merged);
    case Relink(machine, dir, locator, remotes) => RelinkKeeps(w, machine, dir, locator, remotes, merged);
  }

  // ---------- init again ----------

  /** After an init that registered, the same directory is current: a second init names it and writes nothing. */
  lemma InitIsIdempotent(w: World, r: InitRequest, again: InitRequest)
    requires AfterInit(w, r).1.Created? || AfterInit(w, r).1.Registered?
    requires again.machine == r.machine && again.dir == r.dir
    ensures AfterInit(AfterInit(w, r).0, again) == (AfterInit(w, r).0, Current(r.cloneId))
  {
    var now := AfterInit(w, r).0;
    assert now.rows[|w.rows|] == now.rows[|now.rows| - 1] && now.rows[..|w.rows|] == w.rows;
    assert forall k :: 0 <= k < |w.rows| ==> now.rows[k] == w.rows[k];
    assert CurrentAt(now.rows, r.machine, r.dir) == |w.rows|;
  }

  /** The directory is unregistered, its identity resolves to no project there is, and the slug it would take is free. */
  ghost predicate MakesProject(w: World, r: InitRequest) {
    && CurrentAt(w.rows, r.machine, r.dir) == |w.rows|
    && var identity := IdentityRemote(r.remotes, r.identityFlag);
       var slug := SlugFor(r.base, r.slugFlag);
       && identity.Ok? && slug.Ok?
       && (identity.value.0 != "" ==> ByRemote(w.projects, identity.value.0) == |w.projects|)
       && BySlug(w.projects, slug.value) == |w.projects|
  }

  /**
   An init that is refused and yet has written is exactly one that would make a new project and names an
   identity-shaped label: it leaves that project, with no clone, and no other refusal writes anything.
   */
  lemma RefusedInitWrites(w: World, r: InitRequest)
    ensures AfterInit(w, r).1.Refused? && AfterInit(w, r).0 != w <==> MakesProject(w, r) && Ulid.Shaped(r.labelFlag)
    ensures AfterInit(w, r).1.Refused? && AfterInit(w, r).0 != w ==>
              var (remote, name) := IdentityRemote(r.remotes, r.identityFlag).value;
              && AfterInit(w, r).1 == Refused(LabelShaped)
              && AfterInit(w, r).0.rows == w.rows
              && AfterInit(w, r).0.projects == w.projects + [Project(r.projectId, SlugFor(r.base, r.slugFlag).value, remote, name)]
  {
  }

  /**
   What that leaves behind: a local-only directory whose first init was refused for its label meets its own
   project as a slug collision when init is tried again, whatever label it then asks for.
   */
  lemma RetryMeetsItsOwnProject(w: World, r: InitRequest, again: InitRequest)
    requires AfterInit(w, r).1.Refused? && AfterInit(w, r).0 != w && |r.remotes| == 0
    requires again == r.(labelFlag := again.labelFlag, projectId := again.projectId, cloneId := again.cloneId)
    ensures AfterInit(AfterInit(w, r).0, again) == (AfterInit(w, r).0, Refused(SlugCollision))
  {
    var now := AfterInit(w, r).0;
    var slug := SlugFor(r.base, r.slugFlag).value;
    assert now.projects[|w.projects|].slug == slug;
    assert BySlug(now.projects, slug) <= |w.projects|;
  }

  /** An identity-shaped label comes only from a directory name: flags and the joined fallback never give one. */
  lemma ShapedLabelsAreDirectoryNames(base: string, parent: string, flag: string, taken: set<string>)
    requires LabelFor(base, parent, flag, taken).Ok? && Ulid.Shaped(LabelFor(base, parent, flag, taken).value)
    ensures flag == "" && LabelFor(base, parent, flag, taken).value in {base, parent}
  {
    var joined := base + "-" + parent;
    assert joined[|base|] == '-';
    DashIsNoDigit();
  }

  lemma DashIsNoDigit()
    ensures Ulid.ValueOf('-') < 0
  {
    var v := Ulid.ValueOf('-');
    assert forall k :: 0 <= k < 32 ==> Ulid.CROCKFORD[k] != '-';
  }

  // ---------- the acts, writing the journal's documents ----------

  class Journal {
    var projects: seq<Project>
    var rows: seq<Row>

    ghost function Value(): World
      reads this
    {
      World(projects, rows)
    }

    constructor ()
      ensures Value() == World([], [])
    {
      projects, rows := [], [];
    }

    method FindCurrent(machine: string, dir: string) returns (i: nat)
      ensures i == CurrentAt(rows, machine, dir)
    {
      i := 0;
      while i < |rows|
        invariant 0 <= i <= |rows|
        invariant forall k :: 0 <= k < i ==> !(rows[k].machine == machine && rows[k].dir == dir)
      {
        if rows[i].machine == machine && rows[i].dir == dir {
          return;
        }
        i := i + 1;
      }
    }

    method FindProjectByRemote(remote: string) returns (i: nat)
      ensures i == ByRemote(projects, remote)
    {
      i := 0;
      while i < |projects|
        invariant 0 <= i <= |projects|
        invariant forall k :: 0 <= k < i ==> projects[k].remote != remote
      {
        if projects[i].remote == remote {
          return;
        }
        i := i + 1;
      }
    }

    method FindProjectBySlug(slug: string) returns (i: nat)
      ensures i == BySlug(projects, slug)
    {
      i := 0;
      while i < |projects|
        invariant 0 <= i <= |projects|
        invariant forall k :: 0 <= k < i ==> projects[k].slug != slug
      {
        if projects[i].slug == slug {
          return;
        }
        i := i + 1;
      }
    }

    method TakenLabels(slug: string) returns (taken: set<string>)
      ensures taken == Labels(rows, slug)
    {
      taken := {};
      var i := 0;
      while i < |rows|
        invariant 0 <= i <= |rows|
        invariant taken == set k | 0 <= k < i && rows[k].slug == slug :: rows[k].label_
      {
        if rows[i].slug == slug {
          taken := taken + {rows[i].label_};
        }
        i := i + 1;
      }
    }

    method ResolveSlug(base: string, flag: string) returns (r: Outcome<string>)
      ensures r == SlugFor(base, flag)
    {
      if flag == "" {
        return Ok(base);
      }
      var shaped := Ulid.IsIdentityShaped(flag);
      r := if shaped then Err(SlugShaped) else Ok(flag);
    }

    method ResolveLabel(base: string, parent: string, flag: string, taken: set<string>) returns (r: Outcome<string>)
      ensures r == LabelFor(base, parent, flag, taken)
    {
      if flag != "" {
        var shaped := Ulid.IsIdentityShaped(flag);
        return if shaped then Err(LabelShaped) else if flag in taken then Err(LabelCollision) else Ok(flag);
      }
      if base !in taken {
        return Ok(base);
      }
      var suggestion := SuggestLabel(base, parent, taken);
      r := if suggestion.Some? then Ok(suggestion.value) else Err(LabelCollision);
    }

    method Register(r: InitRequest, slug: string, taken: set<string>, created: bool) returns (answer: Answer)
      modifies this
      ensures (Value(), answer) == WithClone(old(Value()), r, slug, taken, created)
    {
      var label_ := ResolveLabel(r.base, r.parent, r.labelFlag, taken);
      if label_.Err? {
        return Refused(label_.code);
      }
      rows := rows + [Row(slug, r.machine, r.cloneId, r.dir, label_.value)];
      answer := if created then Created(r.cloneId) else Registered(r.cloneId);
    }

    method Init(r: InitRequest) returns (answer: Answer)
      modifies this
      ensures (Value(), answer) == AfterInit(old(Value()), r)
    {
      var i := FindCurrent(r.machine, r.dir);
      if i < |rows| {
        return Current(rows[i].id);
      }
      var identity := IdentityRemote(r.remotes, r.identityFlag);
      if identity.Err? {
        return Refused(identity.code);
      }
      var (remote, name) := identity.value;
      if remote != "" {
        var k := FindProjectByRemote(remote);
        if k < |projects| {
          var taken := TakenLabels(projects[k].slug);
          answer := Register(r, projects[k].slug, taken, false);
          return;
        }
      }
      var slug := ResolveSlug(r.base, r.slugFlag);
      if slug.Err? {
        return Refused(slug.code);
      }
      var k := FindProjectBySlug(slug.value);
      if k < |projects| {
        return Refused(SlugCollision);
      }
      projects := projects + [Project(r.projectId, slug.value, remote, name)];
      answer := Register(r, slug.value, {}, true);
    }

    method CurrentCandidates(machine: string, dir: string) returns (found: seq<Row>)
      ensures found == Candidates(rows, machine, dir)
    {
      found := [];
      var i := 0;
      while i < |rows|
        invariant 0 <= i <= |rows|
        invariant found == Candidates(rows[..i], machine, dir)
      {
        assert rows[..i + 1][..i] == rows[..i];
        if rows[i].machine == machine && rows[i].dir == dir {
          found := found + [rows[i]];
        }
        i := i + 1;
      }
      assert rows[..i] == rows;
    }

    method TakenByOthers(c: Row) returns (taken: set<string>)
      ensures taken == OtherLabels(rows, c)
    {
      taken := {};
      var i := 0;
      while i < |rows|
        invariant 0 <= i <= |rows|
        invariant taken == set k | 0 <= k < i && rows[k].slug == c.slug
                                  && (rows[k].id != c.id || rows[k].machine != c.machine) :: rows[k].label_
      {
        if rows[i].slug == c.slug && (rows[i].id != c.id || rows[i].machine != c.machine) {
          taken := taken + {rows[i].label_};
        }
        i := i + 1;
      }
    }

    method Label(machine: string, dir: string, label_: string) returns (answer: Answer)
      modifies this`rows
      ensures (Value(), answer) == AfterLabel(old(Value()), machine, dir, label_)
    {
      var shaped := Ulid.IsIdentityShaped(label_);
      if shaped {
        return Refused(LabelShaped);
      }
      var found := CurrentCandidates(machine, dir);
      if |found| > 1 {
        return Refused(Ambiguous);
      }
      if |found| == 0 {
        return Refused(UnknownClone);
      }
      var c := found[0];
      if c.label_ == label_ {
        return Said(label_);
      }
      var taken := TakenByOthers(c);
      if label_ in taken {
        return Refused(LabelCollision);
      }
      SetLabel(c.slug, machine, c.id, label_);
      answer := Said(label_);
    }

    /** Rewrites one machine's clones file with a clone's label changed. */
    method SetLabel(slug: string, machine: string, id: string, label_: string)
      modifies this`rows
      ensures rows == Relabelled(old(rows), slug, machine, id, label_)
    {
      var i := 0;
      while i < |rows|
        invariant 0 <= i <= |rows| == |old(rows)|
        invariant rows[..i] == Relabelled(old(rows), slug, machine, id, label_)[..i]
        invariant rows[i..] == old(rows)[i..]
      {
        assert rows[i] == rows[i..][0] == old(rows)[i];
        if rows[i].slug == slug && rows[i].machine == machine && rows[i].id == id {
          rows := rows[i := rows[i].(label_ := label_)];
        }
        i := i + 1;
      }
    }

    method SetDir(slug: string, machine: string, id: string, dir: string)
      modifies this`rows
      ensures rows == Relinked(old(rows), slug, machine, id, dir)
    {
      var i := 0;
      while i < |rows|
        invariant 0 <= i <= |rows| == |old(rows)|
        invariant rows[..i] == Relinked(old(rows), slug, machine, id, dir)[..i]
        invariant rows[i..] == old(rows)[i..]
      {
        assert rows[i] == rows[i..][0] == old(rows)[i];
        if rows[i].slug == slug && rows[i].machine == machine && rows[i].id == id {
          rows := rows[i := rows[i].(dir := dir)];
        }
        i := i + 1;
      }
    }

    method Adopt(machine: string, dir: string, remotes: Remotes) returns (answer: Answer)
      modifies this`projects
      ensures (Value(), answer) == AfterAdopt(old(Value()), machine, dir, remotes)
    {
      var found := CurrentCandidates(machine, dir);
      if |found| > 1 {
        return Refused(Ambiguous);
      }
      if |found| == 0 {
        return Refused(UnknownClone);
      }
      var k := FindProjectBySlug(found[0].slug);
      if k == |projects| {
        return Refused(UnknownClone);
      }
      var p := projects[k];
      if p.remote != "" {
        return Said(p.remote);
      }
      var name := if p.identityRemote == "" then "origin" else p.identityRemote;
      if name !in remotes {
        return Refused(NoIdentityRemote);
      }
      if remotes[name] == None {
        return Refused(UnparseableRemote);
      }
      var remote := remotes[name].value;
      var claimed := IsClaimed(remote, p.id);
      if claimed {
        return Refused(RepoKeyConflict);
      }
      projects := Adopted(projects, p.slug, remote, name);
      answer := Said(remote);
    }

    method IsClaimed(remote: string, id: string) returns (claimed: bool)
      ensures claimed == Claimed(projects, remote, id)
    {
      var i := 0;
      while i < |projects|
        invariant 0 <= i <= |projects|
        invariant !Claimed(projects[..i], remote, id)
      {
        if projects[i].remote == remote && projects[i].id != id {
          return true;
        }
        i := i + 1;
      }
      assert projects[..i] == projects;
      claimed := false;
    }

    method Relink(machine: string, dir: string, locator: string, remotes: Remotes) returns (answer: Answer)
      modifies this`rows
      ensures (Value(), answer) == AfterRelink(old(Value()), machine, dir, locator, remotes)
    {
      var found := Locate(machine, locator, remotes);
      if |found| == 0 {
        return Refused(UnknownLocator);
      }
      if |found| > 1 {
        return Refused(Ambiguous);
      }
      var target := found[0];
      var occupied := IsOccupied(machine, dir, target.id);
      if occupied {
        return Refused(CloneKeyConflict);
      }
      SetDir(target.slug, machine, target.id, dir);
      answer := Said(target.id);
    }

    method Locate(machine: string, locator: string, remotes: Remotes) returns (found: seq<Row>)
      ensures found == Located(Value(), rows, machine, locator, remotes)
    {
      var shaped := Ulid.IsIdentityShaped(locator);
      found := [];
      var i := 0;
      while i < |rows|
        invariant 0 <= i <= |rows|
        invariant found == Located(Value(), rows[..i], machine, locator, remotes)
      {
        assert rows[..i + 1][..i] == rows[..i];
        var r := rows[i];
        var named := if shaped then r.id == locator else r.label_ == locator && NamedProject(projects, r.slug, remotes);
        if r.machine == machine && named {
          found := found + [r];
        }
        i := i + 1;
      }
      assert rows[..i] == rows;
    }

    method IsOccupied(machine: string, dir: string, id: string) returns (occupied: bool)
      ensures occupied == Occupied(rows, machine, dir, id)
    {
      var i := 0;
      while i < |rows|
        invariant 0 <= i <= |rows|
        invariant !Occupied(rows[..i], machine, dir, id)
      {
        if rows[i].machine == machine && rows[i].id != id && rows[i].dir == dir {
          return true;
        }
        i := i + 1;
      }
      assert rows[..i] == rows;
      occupied := false;
    }
  }
}
