/**
 The settle caches that ride the checkpoint: a correlation verdict per (thread, revision, host) and the byte cap
 an oversized export failed under. Both stand in for a fetch; both must agree with it, across runs and rescopes.
 */
module AmpCaches {
  import opened Wrappers
  import opened Clock
  import opened AmpCheckpoint

  const VERDICT_CAP: nat := 8192

  /** Whose progress a state file records. */
  datatype Scope = Scope(account: string, install: string, journal: string)

  /** The environment a thread was created in; `path` is its working directory (else first tree) as a local path, "" if none. */
  datatype Environment = Environment(install: string, hostname: string, path: string)
  datatype Birth = Birth(env: Option<Environment>, executor: string)

  /** The directory a document's evidence binds it to; None for an unreadable local hostname. */
  function CorrelateVerdict(doc: Birth, local: string, mine: Option<string>): string {
    if doc.env.None? then ""
    else if doc.executor == "virtual" || doc.executor == "sandbox" then ""
    else if doc.env.value.install != local then ""
    else if doc.env.value.hostname != "" && mine.Some? && doc.env.value.hostname != mine.value then ""
    else doc.env.value.path
  }

  /**
   A document binds to its directory exactly when it says where it was born, it ran on a real machine, and that is
   this install and, as far as both hostnames are known, this host; otherwise to none.
   */
  lemma CorrelatesExactly(doc: Birth, local: string, mine: Option<string>)
    ensures var here := && doc.env.Some? && doc.executor !in {"virtual", "sandbox"}
                        && doc.env.value.install == local
                        && (mine == None || doc.env.value.hostname in {"", mine.value});
            CorrelateVerdict(doc, local, mine) == if here then doc.env.value.path else ""
  {
  }

  datatype ExportError = OverCap | Quarantined | Unavailable
  datatype Fetch = Fetched(doc: Birth) | Refused(why: ExportError)

  class Source {
    /** The evidence a thread was born with, frozen; the size its export has at the n-th call; whether that call gets through. */
    const birth: string -> Birth
    const size: (nat, string) -> int
    const reaches: (nat, string) -> bool

    /** How many saves overflowed the pending cap and reset a checkpoint. */
    ghost var resets: nat
    var calls: nat
    var files: map<Scope, Checkpoint>
    var scope: Scope
    var host: Option<string>
    var maxBytes: int
    var memo: Option<(string, Time, Birth)>
    var verdicts: Option<map<string, Verdict>>
    var verdictsScope: Scope
    var quarantined: Option<map<string, int>>
    var quarScope: Scope

    function File(sc: Scope): Checkpoint
      reads this
    {
      if sc in files then files[sc] else ZERO
    }

    /** A recorded verdict is the one the thread's own evidence gives under that scope's install. */
    ghost predicate VerdictsTrue(m: map<string, Verdict>, sc: Scope) {
      forall id :: id in m ==> m[id].dir == CorrelateVerdict(birth(id), sc.install, Some(m[id].host))
    }

    /** A recorded cap is one the export already exceeds. */
    ghost predicate CapsTrue(m: map<string, int>)
      reads this
    {
      forall id :: id in m ==> m[id] < size(calls, id)
    }

    /** Exports only grow. */
    ghost predicate Growing() {
      forall i: nat, j: nat, id :: i <= j ==> size(i, id) <= size(j, id)
    }

    ghost predicate Valid()
      reads this
    {
      && Growing()
      && (forall sc :: sc in files ==> VerdictsTrue(files[sc].correlate, sc) && CapsTrue(files[sc].quarantined))
      && (verdicts.Some? ==> VerdictsTrue(verdicts.value, verdictsScope))
      && (quarantined.Some? ==> CapsTrue(quarantined.value))
      && (memo.Some? ==> memo.value.2 == birth(memo.value.0))
    }

    /** Unless some checkpoint was reset in between, every recorded cap still stands or has risen. */
    static ghost predicate CapsRise(resets0: nat, before: map<Scope, Checkpoint>, resets1: nat, now: map<Scope, Checkpoint>) {
      && resets0 <= resets1
      && (resets0 == resets1 ==>
            forall sc :: sc in before ==> sc in now && CapsKept(before[sc].quarantined, now[sc].quarantined))
    }

    static predicate CapsKept(before: map<string, int>, now: map<string, int>) {
      forall id :: id in before ==> id in now && now[id] >= before[id]
    }

    constructor (birth: string -> Birth, size: (nat, string) -> int, reaches: (nat, string) -> bool, scope: Scope,
                 host: Option<string>, maxBytes: int)
      requires forall i: nat, j: nat, id :: i <= j ==> size(i, id) <= size(j, id)
      ensures Valid() && files == map[] && this.scope == scope && this.host == host && this.maxBytes == maxBytes
    {
      this.birth, this.size, this.reaches := birth, size, reaches;
      this.scope, this.host, this.maxBytes := scope, host, maxBytes;
      calls, files, resets := 0, map[], 0;
      memo, verdicts, quarantined := None, None, None;
      verdictsScope, quarScope := scope, scope;
    }

    /** A new process over the same files: the in-memory views are gone, scope, host and budget may differ. */
    method NewRun(scope: Scope, host: Option<string>, maxBytes: int)
      requires Valid()
      modifies this
      ensures Valid() && files == old(files) && resets == old(resets) && this.scope == scope && this.host == host && this.maxBytes == maxBytes
    {
      this.scope, this.host, this.maxBytes := scope, host, maxBytes;
      memo, verdicts, quarantined := None, None, None;
    }

    /** Another scope inside the same process: the views stay until they are next consulted. */
    method Rescope(scope: Scope)
      requires Valid()
      modifies this
      ensures Valid() && files == old(files) && resets == old(resets) && this.scope == scope && host == old(host) && maxBytes == old(maxBytes)
    {
      this.scope := scope;
    }

    method Save(next: Checkpoint)
      requires Valid() && VerdictsTrue(next.correlate, scope) && CapsTrue(next.quarantined)
      requires CapsKept(File(scope).quarantined, next.quarantined)
      modifies this`files, this`resets
      ensures Valid() && files == old(files)[scope := Saved(next)] && CapsRise(old(resets), old(files), resets, files)
      ensures resets == old(resets) <==> !Overflows(next)
    {
      files := files[scope := if |next.pending| > PENDING_CAP then RESET else next];
      resets := if |next.pending| > PENDING_CAP then resets + 1 else resets;
    }

    method SettlePending(id: string)
      requires Valid()
      modifies this`files, this`resets
      ensures Valid() && File(scope) == Settled(old(File(scope)), id) && CapsRise(old(resets), old(files), resets, files)
    {
      var st := File(scope);
      if id in st.pending {
        Save(st.(pending := st.pending - {id}));
      }
    }

    method CachedVerdict(id: string, rev: Time, mine: string) returns (dir: Option<string>)
      requires Valid()
      modifies this`verdicts, this`verdictsScope
      ensures Valid() && verdicts.Some? && verdictsScope == scope
      ensures dir.Some? ==> dir.value == CorrelateVerdict(birth(id), scope.install, Some(mine))
    {
      if verdicts.None? || verdictsScope != scope {
        verdicts := Some(File(scope).correlate);
        verdictsScope := scope;
      }
      if id in verdicts.value && verdicts.value[id].rev == rev && verdicts.value[id].host == mine {
        return Some(verdicts.value[id].dir);
      }
      dir := None;
    }

    method RecordVerdict(id: string, rev: Time, mine: string, dir: string)
      requires Valid() && verdicts.Some? && verdictsScope == scope
      requires dir == CorrelateVerdict(birth(id), scope.install, Some(mine))
      modifies this`verdicts, this`files, this`resets
      ensures Valid() && CapsRise(old(resets), old(files), resets, files)
      ensures verdicts.Some? && id in verdicts.value && verdicts.value[id] == Verdict(rev, mine, dir)
      ensures resets == old(resets) && |old(File(scope)).correlate| < VERDICT_CAP ==>
                id in File(scope).correlate && File(scope).correlate[id] == Verdict(rev, mine, dir)
    {
      var v := Verdict(rev, mine, dir);
      verdicts := Some(verdicts.value[id := v]);
      var st := File(scope);
      if id in st.correlate && st.correlate[id] == v {
        return;
      }
      if |st.correlate| >= VERDICT_CAP {
        return;
      }
      Save(st.(correlate := st.correlate[id := v]));
    }

    /** True only when the export, at its size now, exceeds the budget this run has. */
    method ExportQuarantined(id: string) returns (over: bool)
      requires Valid()
      modifies this`quarantined, this`quarScope
      ensures Valid() && quarantined.Some?
      ensures over ==> size(calls, id) > maxBytes
    {
      if quarantined.None? || quarScope != scope {
        quarantined := Some(File(scope).quarantined);
        quarScope := scope;
      }
      over := id in quarantined.value && maxBytes <= quarantined.value[id];
    }

    method RecordCap(id: string)
      requires Valid() && size(calls, id) > maxBytes
      modifies this`files, this`resets
      ensures Valid() && CapsRise(old(resets), old(files), resets, files)
      ensures resets == old(resets) ==> id in File(scope).quarantined && File(scope).quarantined[id] >= maxBytes
    {
      var st := File(scope);
      if id !in st.quarantined || st.quarantined[id] < maxBytes {
        Save(st.(quarantined := st.quarantined[id := maxBytes]));
      }
    }

    method NoteCap(id: string)
      requires Valid() && size(calls, id) > maxBytes
      modifies this`quarantined
      ensures Valid()
      ensures old(quarantined).Some? ==>
                && quarantined.Some? && CapsKept(old(quarantined).value, quarantined.value)
                && id in quarantined.value && quarantined.value[id] >= maxBytes
    {
      if quarantined.Some? && (id !in quarantined.value || quarantined.value[id] < maxBytes) {
        quarantined := Some(quarantined.value[id := maxBytes]);
      }
    }

    method QuarantineExport(id: string)
      requires Valid() && size(calls, id) > maxBytes
      modifies this`quarantined, this`files, this`resets
      ensures Valid() && CapsRise(old(resets), old(files), resets, files)
      ensures id !in File(scope).pending
      ensures resets == old(resets) ==> id in File(scope).quarantined && File(scope).quarantined[id] >= maxBytes
    {
      NoteCap(id);
      RecordCap(id);
      SettlePending(id);
    }

    /** One export call; an export over the byte budget is recorded and settled. */
    method ExportOnce(id: string) returns (r: Fetch)
      requires Valid()
      modifies this
      ensures Valid() && CapsRise(old(resets), old(files), resets, files) && scope == old(scope) && host == old(host) && maxBytes == old(maxBytes)
      ensures verdicts == old(verdicts) && verdictsScope == old(verdictsScope)
      ensures r.Fetched? ==> r.doc == birth(id) && size(calls, id) <= maxBytes
      ensures r == Refused(OverCap) ==> size(calls, id) > maxBytes && id !in File(scope).pending
      ensures r != Refused(Quarantined)
    {
      calls := calls + 1;
      if !reaches(calls, id) {
        return Refused(Unavailable);
      }
      if size(calls, id) > maxBytes {
        QuarantineExport(id);
        return Refused(OverCap);
      }
      r := Fetched(birth(id));
    }

    /** The memoized fetch. A quarantine refusal spends no call, settles the id, and happens only over budget. */
    method ExportFor(id: string, modTime: Time) returns (r: Fetch)
      requires Valid()
      modifies this
      ensures Valid() && CapsRise(old(resets), old(files), resets, files) && scope == old(scope) && host == old(host) && maxBytes == old(maxBytes)
      ensures verdicts == old(verdicts) && verdictsScope == old(verdictsScope)
      ensures r.Fetched? ==> r.doc == birth(id)
      ensures r == Refused(Quarantined) ==> size(calls, id) > maxBytes && calls == old(calls) && id !in File(scope).pending
    {
      var over := ExportQuarantined(id);
      if over {
        SettlePending(id);
        return Refused(Quarantined);
      }
      if memo.Some? && memo.value.0 == id && memo.value.1 == modTime {
        return Fetched(memo.value.2);
      }
      r := ExportOnce(id);
      if r.Fetched? {
        memo := Some((id, modTime, r.doc));
      }
    }

    /** Whether answered from the cache or by a fetch, the directory is the one the thread's own evidence gives. */
    method Correlate(id: string, modTime: Time) returns (dir: Option<string>)
      requires Valid()
      modifies this
      ensures Valid() && CapsRise(old(resets), old(files), resets, files) && scope == old(scope) && host == old(host) && maxBytes == old(maxBytes)
      ensures dir.Some? ==>
                dir.value == if scope.install == "" then "" else CorrelateVerdict(birth(id), scope.install, host)
      ensures dir.None? ==> scope.install != ""
    {
      if scope.install == "" {
        return Some("");
      }
      if host.Some? {
        var hit := CachedVerdict(id, modTime, host.value);
        if hit.Some? {
          return hit;
        }
      }
      var r := ExportFor(id, modTime);
      if r.Refused? {
        return None;
      }
      dir := Some(CorrelateVerdict(r.doc, scope.install, host));
      if host.Some? {
        RecordVerdict(id, modTime, host.value, dir.value);
        }
    }
  }
}
