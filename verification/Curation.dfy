/**
 One session's documents (transcript artifact, session.json, curation.json, entry.md) under the capture sweep and
 the curation verbs. Every document write is atomic; a crash may fall between any two.
 */
module Curation {
  import opened Wrappers
  import opened Journal
  import opened AmpRecapture

  const AUTO_NOOP := "auto:no-op"

  datatype CurationState = Captured | Curated | Dismissed

  /** curation.json; its absence means captured. */
  datatype CurationDoc = CurationDoc(state: CurationState, reason: Option<string>, stamp: Option<Fingerprint>)

  function AutoDismissal(): CurationDoc {
    CurationDoc(Dismissed, Some(AUTO_NOOP), None)
  }

  datatype Item = Item(artifact: Option<string>, session: Option<Session>, curation: Option<CurationDoc>, entry: Option<string>)
  const ABSENT := Item(None, None, None, None)

  function State(it: Item): CurationState {
    if it.curation.None? then Captured else it.curation.value.state
  }

  /** A curated session whose fingerprint is no longer the one recorded at curation. */
  predicate Stale(it: Item) {
    && it.session.Some?
    && State(it) == Curated
    && it.curation.value.stamp.Some?
    && it.session.value.facts.transcript != it.curation.value.stamp.value
  }

  // ---------- what each verb does to one session ----------

  /** A source's answers about one discovered session. `same` is its unchanged verdict; `vets` marks a source that can refuse a recapture. */
  datatype Answers = Answers(same: bool, project: Option<string>, read: Option<(string, Facts)>, vets: bool, now: int)

  /** A sweep walks the journal once, at its start: after the first `since` verbs of the history it is part of. */
  datatype Verb =
    | Sweep(since: nat, answers: Answers, autoDismiss: bool, writes: nat)
    | Curate(doc: string, writes: nat)
    | Dismiss(reason: string)
    | Undismiss

  /** A sweep commits a fresh read: the source read the session, and the one walked does not veto it. */
  predicate Commits(walked: Option<Session>, a: Answers) {
    && a.read.Some?
    && (walked.Some? ==> !a.same && (a.vets ==> Supersedes(walked.value.facts, a.read.value.1)))
  }

  predicate Backfills(walked: Option<Session>, a: Answers) {
    walked.Some? && a.same && walked.value.project.None? && a.project.Some?
  }

  function AutoCurated(c: Option<CurationDoc>, substantive: bool, autoDismiss: bool): Option<CurationDoc> {
    if !substantive && autoDismiss && c.None? then Some(AutoDismissal())
    else if substantive && c.Some? && c.value.state == Dismissed && c.value.reason == Some(AUTO_NOOP) then None
    else c
  }

  /** Artifact, then session.json, then the automatic curation call; `writes` of the three happen before a crash. */
  function Committed(it: Item, a: Answers, autoDismiss: bool, writes: nat): Item
    requires a.read.Some?
  {
    var (content, facts) := a.read.value;
    var landed := if writes >= 1 then it.(artifact := Some(content)) else it;
    var written := if writes >= 2 then landed.(session := Some(Session(facts, a.now, a.project))) else landed;
    if writes >= 3 then written.(curation := AutoCurated(it.curation, facts.substantive, autoDismiss)) else written
  }

  /** The prior session is the one walked: a backfill writes that one back, with its project. */
  function Swept(it: Item, walked: Option<Session>, a: Answers, autoDismiss: bool, writes: nat): Item {
    if Commits(walked, a) then Committed(it, a, autoDismiss, writes)
    else if Backfills(walked, a) && writes >= 1 then it.(session := Some(walked.value.(project := a.project)))
    else it
  }

  /** entry.md first, then curation.json with the fingerprint the session holds now. */
  function CuratedAs(it: Item, doc: string, writes: nat): Item {
    if it.session.None? then it
    else
      var entered := if writes >= 1 then it.(entry := Some(doc)) else it;
      if writes >= 2 then entered.(curation := Some(CurationDoc(Curated, None, Some(it.session.value.facts.transcript))))
      else entered
  }

  predicate Dismissible(it: Item, reason: string) {
    reason != AUTO_NOOP && it.session.Some? && State(it) != Curated && it.entry.None?
  }

  function Apply(it: Item, walked: Option<Session>, v: Verb): Item {
    match v
    case Sweep(_, a, autoDismiss, writes) => Swept(it, walked, a, autoDismiss, writes)
    case Curate(doc, writes) => CuratedAs(it, doc, writes)
    case Dismiss(reason) =>
      if Dismissible(it, reason) then it.(curation := Some(CurationDoc(Dismissed, Some(reason), None))) else it
    case Undismiss => if it.session.Some? && State(it) == Dismissed then it.(curation := None) else it
  }

  /** The session after the first n verbs of a history. */
  function After(vs: seq<Verb>, n: nat): Item
    requires n <= |vs|
    decreases n, 0
  {
    if n == 0 then ABSENT else Apply(After(vs, n - 1), Walked(vs, n - 1), vs[n - 1])
  }

  /** What the k-th verb, a sweep, walked. */
  function Walked(vs: seq<Verb>, k: nat): Option<Session>
    requires k < |vs|
    decreases k, 1
  {
    if vs[k].Sweep? then After(vs, if vs[k].since <= k then vs[k].since else k).session else None
  }

  /** No other sweep falls between the walk of the k-th verb and its writes. */
  ghost predicate Alone(vs: seq<Verb>, k: nat)
    requires k < |vs|
  {
    vs[k].Sweep? ==> forall j :: vs[k].since <= j < k ==> !vs[j].Sweep?
  }

  lemma {:induction false} OnlySweepsWriteSessions(vs: seq<Verb>, from: nat, k: nat)
    requires from <= k <= |vs| && forall j :: from <= j < k ==> !vs[j].Sweep?
    ensures After(vs, from).session == After(vs, k).session
  {
    if from < k {
      OnlySweepsWriteSessions(vs, from, k - 1);
    }
  }

  /** A sweep alone writes over the very session it walked. */
  lemma AloneWalksWhatStands(vs: seq<Verb>, k: nat)
    requires k < |vs| && vs[k].Sweep? && Alone(vs, k)
    ensures Walked(vs, k) == After(vs, k).session
  {
    OnlySweepsWriteSessions(vs, if vs[k].since <= k then vs[k].since else k, k);
  }

  /**
   What a whole sweep does with one session. A known, unchanged one is left alone, but for a project it lacked; so is
   one that cannot be read, or whose recapture is vetoed. Otherwise the artifact and session.json are the fresh read,
   and curation follows its substance: a session without any is dismissed if nothing was decided, and one with some
   loses a dismissal of that kind, and no other decision changes.
   */
  lemma SweepEffect(it: Item, walked: Option<Session>, a: Answers, autoDismiss: bool)
    ensures var now := Swept(it, walked, a, autoDismiss, 3);
            if walked.Some? && a.same then
              now == if walked.value.project == None && a.project.Some?
                     then it.(session := Some(Session(walked.value.facts, walked.value.capturedAt, a.project))) else it
            else if a.read == None || (walked.Some? && a.vets && !Supersedes(walked.value.facts, a.read.value.1)) then now == it
            else
              var (content, facts) := a.read.value;
              && now.artifact == Some(content) && now.session == Some(Session(facts, a.now, a.project)) && now.entry == it.entry
              && var own := it.curation.Some? && it.curation.value.state == Dismissed
                            && it.curation.value.reason == Some("auto:no-op");
                 && (facts.substantive && own ==> now.curation == None)
                 && (!facts.substantive && autoDismiss && it.curation == None ==>
                       now.curation == Some(CurationDoc(Dismissed, Some("auto:no-op"), None)))
                 && ((if facts.substantive then !own else !autoDismiss || it.curation.Some?) ==> now.curation == it.curation)
  {
  }

  // ---------- over all histories, overlapping sweeps included ----------

  predicate WellFormed(it: Item) {
    && (State(it) == Curated ==> it.entry.Some? && it.curation.value.stamp.Some?)
    && (it.curation.Some? ==> it.session.Some? && it.curation.value.state != Captured)
  }

  /** In every history a curated session has its entry.md and a recorded fingerprint. */
  lemma {:induction false} CuratedHasEntry(vs: seq<Verb>, n: nat)
    requires n <= |vs|
    ensures WellFormed(After(vs, n))
  {
    if n > 0 {
      CuratedHasEntry(vs, n - 1);
    }
  }

  /** The verb wrote the reserved dismissal over an uncurated session: a sweep of a non-substantive read. */
  predicate AutoDismissesAt(it: Item, walked: Option<Session>, v: Verb) {
    && v.Sweep? && v.autoDismiss && v.writes >= 3
    && Commits(walked, v.answers) && !v.answers.read.value.1.substantive
    && it.curation.None?
  }

  predicate Reserved(it: Item) {
    it.curation.Some? && it.curation.value.reason == Some(AUTO_NOOP)
  }

  /** The curation document after n verbs has stood since verb k ran. */
  ghost predicate StandsSince(vs: seq<Verb>, n: nat, k: nat)
    requires k < n <= |vs|
  {
    forall j :: k < j <= n ==> After(vs, j).curation == After(vs, n).curation
  }

  /** The reserved reason is written by capture alone: wherever it stands, a sweep wrote it and nothing has since. */
  lemma {:induction false} ReservedReasonIsCapturesOwn(vs: seq<Verb>, n: nat) returns (k: nat)
    requires n <= |vs| && Reserved(After(vs, n))
    ensures k < n && AutoDismissesAt(After(vs, k), Walked(vs, k), vs[k]) && StandsSince(vs, n, k)
  {
    k := n - 1;
    if After(vs, k).curation == After(vs, n).curation {
      k := ReservedReasonIsCapturesOwn(vs, n - 1);
    }
  }

  /** A sweep leaves every curation document alone but its own dismissal, which it may add or retract; never entry.md. */
  lemma SweepTouchesOnlyItsOwnDismissal(it: Item, walked: Option<Session>, v: Verb)
    requires v.Sweep? && WellFormed(it)
    ensures Apply(it, walked, v).entry == it.entry
    ensures Apply(it, walked, v).curation == it.curation
         || (it.curation.None? && Apply(it, walked, v).curation == Some(AutoDismissal()))
         || (Reserved(it) && it.curation.value.state == Dismissed && Apply(it, walked, v).curation.None?)
  {
  }

  /** An entry, once written, is there for good, and a curated session stays curated. */
  lemma {:induction false} EntryIsKept(vs: seq<Verb>, n: nat, m: nat)
    requires n <= m <= |vs| && After(vs, n).entry.Some?
    ensures After(vs, m).entry.Some?
    ensures State(After(vs, n)) == Curated ==> State(After(vs, m)) == Curated
  {
    if n < m {
      EntryIsKept(vs, n, m - 1);
    }
  }

  // ---------- what makes a curated session stale ----------

  /** The verb is a recapture, not a backfill, that wrote a fingerprint other than f. */
  predicate RecapturesAway(walked: Option<Session>, v: Verb, f: Fingerprint) {
    && v.Sweep? && v.writes >= 2
    && Commits(walked, v.answers) && !Backfills(walked, v.answers)
    && v.answers.read.value.1.transcript != f
  }

  /** The verb is a backfill that wrote back a session with a fingerprint other than f. */
  predicate BackfillsAway(walked: Option<Session>, v: Verb, f: Fingerprint) {
    && v.Sweep? && v.writes >= 1
    && Backfills(walked, v.answers) && !Commits(walked, v.answers)
    && walked.value.facts.transcript != f
  }

  /**
   A curated session is stale only through a write made since its curation with a different fingerprint: a
   recapture, or a backfill by a sweep that another overlapped.
   */
  lemma {:induction false} StaleOnlyByAWrite(vs: seq<Verb>, n: nat) returns (k: nat)
    requires n <= |vs| && Stale(After(vs, n))
    ensures k < n && After(vs, k).curation == After(vs, n).curation
    ensures var f := After(vs, n).curation.value.stamp.value;
            RecapturesAway(Walked(vs, k), vs[k], f) || (BackfillsAway(Walked(vs, k), vs[k], f) && !Alone(vs, k))
  {
    k := n - 1;
    CuratedHasEntry(vs, k);
    var f := After(vs, n).curation.value.stamp.value;
    if Stale(After(vs, k)) {
      k := StaleOnlyByAWrite(vs, n - 1);
    } else if BackfillsAway(Walked(vs, k), vs[k], f) && Alone(vs, k) {
      AloneWalksWhatStands(vs, k);
    }
  }

  /** The k-th verb, a backfill, turns a curated session stale. */
  ghost predicate BackfillStales(vs: seq<Verb>, k: nat, overlap: bool) {
    && k < |vs| && (overlap || forall j :: 0 <= j < |vs| ==> Alone(vs, j))
    && vs[k].Sweep? && Backfills(Walked(vs, k), vs[k].answers)
    && !Stale(After(vs, k)) && Stale(After(vs, k + 1))
  }

  function Revision(lines: nat): Facts {
    Facts(lines, true, false, Fingerprint(lines, ""))
  }

  function Reads(lines: nat): Answers {
    Answers(false, None, Some(("", Revision(lines))), true, 0)
  }

  /** Revision 1 is captured and walked by two sweeps; one commits revision 3, which is curated; the other backfills. */
  const BACKFILLED: seq<Verb> := [Sweep(0, Reads(1), false, 3), Sweep(1, Reads(3), false, 3), Curate("", 2),
                                  Sweep(1, Reads(1).(same := true, project := Some("")), false, 3)]

  /** A backfill can turn a curated session stale if and only if sweeps may overlap. */
  lemma BackfillStalesOnlyInOverlap(overlap: bool)
    ensures (exists vs, k :: BackfillStales(vs, k, overlap)) <==> overlap
  {
    if overlap {
      assert After(BACKFILLED, 1).session == Some(Session(Revision(1), 0, None));
      assert After(BACKFILLED, 2).session == Some(Session(Revision(3), 0, None));
      assert After(BACKFILLED, 3).curation == Some(CurationDoc(Curated, None, Some(Fingerprint(3, ""))));
      assert BackfillStales(BACKFILLED, 3, overlap);
    }
    forall vs, k | BackfillStales(vs, k, false)
      ensures false
    {
      AloneWalksWhatStands(vs, k);
    }
  }

  // ---------- what is committed never goes back ----------

  /** Over all sweeps of a source that vets its recaptures, none overlapping another, no commit goes back. */
  lemma {:induction false} VettedFactsNeverRegress(vs: seq<Verb>, n: nat, m: nat)
    requires n <= m <= |vs| && After(vs, n).session.Some?
    requires forall k :: n <= k < m && vs[k].Sweep? ==> vs[k].answers.vets && Alone(vs, k)
    ensures After(vs, m).session.Some?
    ensures Advanced(After(vs, n).session.value.facts, After(vs, m).session.value.facts)
  {
    if n < m {
      VettedFactsNeverRegress(vs, n, m - 1);
      if vs[m - 1].Sweep? {
        AloneWalksWhatStands(vs, m - 1);
      }
    }
  }

  /** A commit of a vetting source goes back between two moments of a history. */
  ghost predicate GoesBack(vs: seq<Verb>, n: nat, m: nat, overlap: bool) {
    && n <= m <= |vs| && After(vs, n).session.Some?
    && (forall k :: 0 <= k < |vs| && vs[k].Sweep? ==> vs[k].answers.vets && (overlap || Alone(vs, k)))
    && !(After(vs, m).session.Some? && Advanced(After(vs, n).session.value.facts, After(vs, m).session.value.facts))
  }

  /** Two sweeps walk revision 1; one commits revision 3, and the other then commits revision 2 over it. */
  const WENT_BACK: seq<Verb> := [Sweep(0, Reads(1), false, 3), Sweep(1, Reads(3), false, 3), Sweep(1, Reads(2), false, 3)]

  /** A vetted commit can go back if and only if sweeps may overlap. */
  lemma VettedGoesBackOnlyInOverlap(overlap: bool)
    ensures (exists vs, n, m :: GoesBack(vs, n, m, overlap)) <==> overlap
  {
    if overlap {
      assert After(WENT_BACK, 1).session == Some(Session(Revision(1), 0, None));
      assert After(WENT_BACK, 2).session == Some(Session(Revision(3), 0, None));
      assert After(WENT_BACK, 3).session == Some(Session(Revision(2), 0, None));
      assert GoesBack(WENT_BACK, 2, 3, overlap);
    }
    forall vs, n, m | GoesBack(vs, n, m, false)
      ensures false
    {
      VettedFactsNeverRegress(vs, n, m);
    }
  }

  // ---------- the verbs as they run ----------

  /** A source's answers about one session, in the order they came. */
  function Of(key: string, found: seq<(string, Answers)>): seq<Answers> {
    if found == [] then []
    else
      var front, last := Of(key, found[..|found| - 1]), found[|found| - 1];
      if last.0 == key then front + [last.1] else front
  }

  /** One session under a whole sweep: everything found of it is captured against the session walked at the start. */
  function SweptAll(it: Item, walked: Option<Session>, answers: seq<Answers>, autoDismiss: bool): Item {
    if answers == [] then it
    else Swept(SweptAll(it, walked, answers[..|answers| - 1], autoDismiss), walked, answers[|answers| - 1], autoDismiss, 3)
  }

  /** The journal tree, one item per session directory. */
  class Store {
    var items: map<string, Item>

    function At(key: string): Item
      reads this
    {
      if key in items then items[key] else ABSENT
    }

    twostate predicate OnlyChanges(key: string)
      reads this
    {
      forall other :: other != key ==> At(other) == old(At(other))
    }

    method WriteArtifact(key: string, content: string)
      modifies this
      ensures At(key) == old(At(key)).(artifact := Some(content)) && OnlyChanges(key)
    {
      items := items[key := At(key).(artifact := Some(content))];
    }

    method WriteSession(key: string, session: Session)
      modifies this
      ensures At(key) == old(At(key)).(session := Some(session)) && OnlyChanges(key)
    {
      items := items[key := At(key).(session := Some(session))];
    }

    method WriteCuration(key: string, doc: Option<CurationDoc>)
      modifies this
      ensures At(key) == old(At(key)).(curation := doc) && OnlyChanges(key)
    {
      items := items[key := At(key).(curation := doc)];
    }

    method WriteEntry(key: string, doc: string)
      modifies this
      ensures At(key) == old(At(key)).(entry := Some(doc)) && OnlyChanges(key)
    {
      items := items[key := At(key).(entry := Some(doc))];
    }

    method ApplyAutoDismissal(key: string, substantive: bool, autoDismiss: bool) returns (dismissed: bool)
      modifies this
      ensures At(key) == old(At(key)).(curation := AutoCurated(old(At(key)).curation, substantive, autoDismiss))
      ensures dismissed <==> old(At(key)).curation.None? && At(key).curation.Some?
      ensures OnlyChanges(key)
    {
      var cur := At(key).curation;
      if !substantive && autoDismiss && cur.None? {
        WriteCuration(key, Some(AutoDismissal()));
        return true;
      }
      if substantive && cur.Some? && cur.value.state == Dismissed && cur.value.reason == Some(AUTO_NOOP) {
        WriteCuration(key, None);
      }
      dismissed := false;
    }

    /** One discovered session end to end; a vetoed or unreadable one is left exactly as it stood. */
    method CaptureOne(key: string, prior: Option<Session>, a: Answers, autoDismiss: bool)
      modifies this
      ensures At(key) == Swept(old(At(key)), prior, a, autoDismiss, 3)
      ensures OnlyChanges(key)
    {
      if prior.Some? && a.same {
        if prior.value.project.None? && a.project.Some? {
          WriteSession(key, prior.value.(project := a.project));
        }
        return;
      }
      if a.read.None? {
        return;
      }
      var (content, facts) := a.read.value;
      if prior.Some? && a.vets && !Supersedes(prior.value.facts, facts) {
        return;
      }
      WriteArtifact(key, content);
      WriteSession(key, Session(facts, a.now, a.project));
      var _ := ApplyAutoDismissal(key, facts.substantive, autoDismiss);
    }

    /** A whole sweep: the journal is walked once, and every session found is captured against that walk. */
    method Run(found: seq<(string, Answers)>, autoDismiss: bool)
      modifies this
      ensures forall key :: At(key) == SweptAll(old(At(key)), old(At(key)).session, Of(key, found), autoDismiss)
    {
      var existing := items;
      var i := 0;
      while i < |found|
        invariant 0 <= i <= |found|
        invariant forall key :: At(key) == SweptAll(old(At(key)), old(At(key)).session, Of(key, found[..i]), autoDismiss)
      {
        var (key, a) := found[i];
        var prior := if key in existing then existing[key].session else None;
        CaptureOne(key, prior, a, autoDismiss);
        assert found[..i + 1][..i] == found[..i];
        assert forall other :: Of(other, found[..i + 1]) == Of(other, found[..i]) + if other == key then [a] else [];
        i := i + 1;
      }
      assert found[..i] == found;
    }

    method CurateOne(key: string, doc: string) returns (ok: bool)
      modifies this
      ensures At(key) == CuratedAs(old(At(key)), doc, 2)
      ensures ok <==> old(At(key)).session.Some?
      ensures var was := old(At(key));
              At(key) == if !ok then was
                         else was.(entry := Some(doc),
                                   curation := Some(CurationDoc(Curated, None, Some(was.session.value.facts.transcript))))
      ensures ok ==> State(At(key)) == Curated && !Stale(At(key))
      ensures OnlyChanges(key)
    {
      var session := At(key).session;
      if session.None? {
        return false;
      }
      WriteEntry(key, doc);
      WriteCuration(key, Some(CurationDoc(Curated, None, Some(session.value.facts.transcript))));
      ok := true;
    }

    method DismissOne(key: string, reason: string) returns (ok: bool)
      modifies this
      ensures At(key) == Apply(old(At(key)), None, Dismiss(reason))
      ensures var was := old(At(key));
              && (ok <==> reason != "auto:no-op" && was.session.Some? && was.entry == None && State(was) != Curated)
              && At(key) == if ok then was.(curation := Some(CurationDoc(Dismissed, Some(reason), None))) else was
      ensures OnlyChanges(key)
    {
      if reason == AUTO_NOOP {
        return false;
      }
      var it := At(key);
      if it.session.None? || State(it) == Curated || it.entry.Some? {
        return false;
      }
      WriteCuration(key, Some(CurationDoc(Dismissed, Some(reason), None)));
      ok := true;
    }

    method UndismissOne(key: string) returns (ok: bool)
      modifies this
      ensures At(key) == Apply(old(At(key)), None, Undismiss)
      ensures ok <==> old(At(key)).session.Some? && State(old(At(key))) == Dismissed
      ensures At(key) == if ok then old(At(key)).(curation := None) else old(At(key))
      ensures OnlyChanges(key)
    {
      var it := At(key);
      if it.session.None? || State(it) != Dismissed {
        return false;
      }
      WriteCuration(key, None);
      ok := true;
    }
  }
}
