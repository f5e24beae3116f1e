/** What a finalize request and each sweep bring about when nothing comes between their steps. */
module LifecycleOutcomes {
  import opened Contract
  import opened Records
  import opened AssetStore
  import opened Lifecycle
  import JobQueue

  /** These steps can be taken one after another. */
  predicate Goes(grace: int, s: System, steps: seq<Step>)
    decreases |steps|
  {
    steps == [] || (Enabled(grace, s, steps[0]) && Goes(grace, Apply(grace, s, steps[0]), steps[1..]))
  }

  function Leads(grace: int, s: System, steps: seq<Step>): System
    requires Goes(grace, s, steps)
    decreases |steps|
  {
    if steps == [] then s else Leads(grace, Apply(grace, s, steps[0]), steps[1..])
  }

  lemma FirstStep(grace: int, s: System, a: Step, rest: seq<Step>)
    ensures Goes(grace, s, [a] + rest) <==> Enabled(grace, s, a) && Goes(grace, Apply(grace, s, a), rest)
    ensures Goes(grace, s, [a] + rest) ==> Leads(grace, s, [a] + rest) == Leads(grace, Apply(grace, s, a), rest)
  {
    assert ([a] + rest)[0] == a && ([a] + rest)[1..] == rest;
  }

  lemma TwoSteps(grace: int, s: System, a: Step, b: Step)
    ensures Goes(grace, s, [a, b]) <==> Enabled(grace, s, a) && Enabled(grace, Apply(grace, s, a), b)
    ensures Goes(grace, s, [a, b]) ==> Leads(grace, s, [a, b]) == Apply(grace, Apply(grace, s, a), b)
  {
    FirstStep(grace, s, a, [b]);
    assert [a, b] == [a] + [b] && [b] == [b] + [];
    if Enabled(grace, s, a) {
      FirstStep(grace, Apply(grace, s, a), b, []);
      if Enabled(grace, Apply(grace, s, a), b) { assert Goes(grace, Apply(grace, Apply(grace, s, a), b), []); }
    }
  }

  lemma ThreeSteps(grace: int, s: System, a: Step, b: Step, c: Step)
    ensures Goes(grace, s, [a, b, c]) <==>
              && Enabled(grace, s, a) && Enabled(grace, Apply(grace, s, a), b)
              && Enabled(grace, Apply(grace, Apply(grace, s, a), b), c)
    ensures Goes(grace, s, [a, b, c]) ==>
              Leads(grace, s, [a, b, c]) == Apply(grace, Apply(grace, Apply(grace, s, a), b), c)
  {
    FirstStep(grace, s, a, [b, c]);
    assert [a, b, c] == [a] + [b, c];
    if Enabled(grace, s, a) { TwoSteps(grace, Apply(grace, s, a), b, c); }
  }

  // ---- finalize -------------------------------------------------------------------

  /** A finalize request gets going on exactly the account's own original uploads that no sweep has stamped. */
  lemma BegunIff(grace: int, s: System, f: nat, account: Id, id: Id)
    requires f < |s.finalizers| && s.finalizers[f] == Waiting
    ensures Enabled(grace, s, Read(f, account, id)) <==>
      && id in s.db.uploads && s.db.uploads[id].account == account
      && s.db.uploads[id].sweptAt == None && s.db.uploads[id].rendition == None
  {
  }

  /** When its object is there and nobody comes between, it creates the asset of the stored facts and stamps the
      upload. */
  lemma UploadBecomesAsset(grace: int, s: System, f: nat, account: Id, id: Id, v: VaultRecord)
    requires Enabled(grace, s, Read(f, account, id)) && s.db.uploads[id].key in s.objects
    requires s.db.uploads[id].finalizedAt == None && id !in s.db.t.assets
    ensures
      var steps := [Read(f, account, id), Head(f), Commit(f, v)];
      var row := Asset(account, v.kind, s.db.uploads[id].key, v.size, v.width, v.height, v.checksum, v.checksumVerified,
                       None, s.now, None);
      && Goes(grace, s, steps)
      && Leads(grace, s, steps) ==
         s.(db := s.db.(t := s.db.t.(assets := s.db.t.assets[id := row]),
                        uploads := s.db.uploads[id := s.db.uploads[id].(finalizedAt := Some(s.now))]),
            births := s.births + [id])
  {
    ThreeSteps(grace, s, Read(f, account, id), Head(f), Commit(f, v));
    assert s.finalizers[f := Waiting] == s.finalizers;
  }

  /** When its object is not there it ends without a trace; and once an upload is finalized, another finalize creates
      nothing. */
  lemma NoObjectNoAsset(grace: int, s: System, f: nat, account: Id, id: Id, v: VaultRecord)
    requires Enabled(grace, s, Read(f, account, id))
    ensures
      s.db.uploads[id].key !in s.objects ==>
        Goes(grace, s, [Read(f, account, id), Head(f)]) && Leads(grace, s, [Read(f, account, id), Head(f)]) == s
    ensures
      s.db.uploads[id].key in s.objects && s.db.uploads[id].finalizedAt.Some? ==>
        var steps := [Read(f, account, id), Head(f), Commit(f, v)];
        Goes(grace, s, steps) && Leads(grace, s, steps) == s
  {
    TwoSteps(grace, s, Read(f, account, id), Head(f));
    ThreeSteps(grace, s, Read(f, account, id), Head(f), Commit(f, v));
    assert s.finalizers[f := Waiting] == s.finalizers;
  }

  // ---- the sweeps ------------------------------------------------------------------

  /** A sweep at work on one row: select it, delete its object, settle the row. */
  function OrphanSteps(grace: int, s: System, c: nat, id: Id): seq<Step> {
    [SelectOrphans(c, [id], s.now - grace), DeleteObject(c, true), SettleRow(c, true)]
  }

  function PurgeSteps(grace: int, s: System, c: nat, id: Id): seq<Step> {
    [SelectDeleted(c, [id], s.now - grace), DeleteObject(c, true), SettleRow(c, true)]
  }

  /** The orphan sweep selects exactly the uploads neither finalized nor swept that are older than the grace window. */
  lemma OrphanIff(grace: int, s: System, c: nat, id: Id)
    requires c < |s.cleaners| && s.cleaners[c] == Resting && id in s.db.uploads
    ensures Goes(grace, s, OrphanSteps(grace, s, c, id)) <==>
      && s.db.uploads[id].finalizedAt == None && s.db.uploads[id].sweptAt == None
      && s.now - s.db.uploads[id].created > grace
  {
    assert [id][0] == id && id in [id] && forall x | x in [id] :: x == id;
    ThreeSteps(grace, s, SelectOrphans(c, [id], s.now - grace), DeleteObject(c, true), SettleRow(c, true));
  }

  /** And reclaims them: the object goes, and the row is stamped, so that no finalize of it can begin any more. */
  lemma OrphanReclaimed(grace: int, s: System, c: nat, id: Id, f: nat, account: Id)
    requires c < |s.cleaners| && s.cleaners[c] == Resting && id in s.db.uploads
    requires Goes(grace, s, OrphanSteps(grace, s, c, id))
    ensures
      var s' := Leads(grace, s, OrphanSteps(grace, s, c, id));
      && s' == s.(objects := s.objects - {s.db.uploads[id].key}, cleaners := s'.cleaners,
                  db := s.db.(uploads := s.db.uploads[id := s.db.uploads[id].(sweptAt := Some(s.now))]))
      && !Enabled(grace, s', Read(f, account, id))
  {
    assert [id][0] == id && id in [id];
    ThreeSteps(grace, s, SelectOrphans(c, [id], s.now - grace), DeleteObject(c, true), SettleRow(c, true));
  }

  /** The other sweep selects exactly the assets marked deleted longer ago than the grace window. */
  lemma DeletedIff(grace: int, s: System, c: nat, id: Id)
    requires c < |s.cleaners| && s.cleaners[c] == Resting && id in s.db.t.assets
    ensures Goes(grace, s, PurgeSteps(grace, s, c, id)) <==>
      s.db.t.assets[id].deletedAt.Some? && s.now - s.db.t.assets[id].deletedAt.value > grace
  {
    assert [id][0] == id && id in [id] && forall x | x in [id] :: x == id;
    ThreeSteps(grace, s, SelectDeleted(c, [id], s.now - grace), DeleteObject(c, true), SettleRow(c, true));
  }

  lemma PurgedRows(t: Tables, id: Id)
    requires id in t.assets && t.assets[id].deletedAt.Some?
    ensures
      var t' := JobQueue.Purged(t, id);
      && t'.assets == t.assets - {id}
      && (forall j :: j in t'.jobs <==> j in t.jobs && t.jobs[j].asset != id)
      && (forall r :: r in t'.renditions <==> r in t.renditions && r.0 != id)
      && (forall j | j in t'.jobs :: t'.jobs[j] == t.jobs[j])
      && (forall r | r in t'.renditions :: t'.renditions[r] == t.renditions[r])
  {
  }

  lemma PurgeLeads(grace: int, s: System, c: nat, id: Id)
    requires c < |s.cleaners| && s.cleaners[c] == Resting && id in s.db.t.assets
    requires Goes(grace, s, PurgeSteps(grace, s, c, id))
    ensures s.db.t.assets[id].deletedAt.Some?
    ensures
      var s' := Leads(grace, s, PurgeSteps(grace, s, c, id));
      s'.objects == s.objects - {s.db.t.assets[id].vaultKey} && s'.db == s.db.(t := JobQueue.Purged(s.db.t, id))
  {
    DeletedIff(grace, s, c, id);
    assert [id][0] == id && id in [id];
    ThreeSteps(grace, s, SelectDeleted(c, [id], s.now - grace), DeleteObject(c, true), SettleRow(c, true));
  }

  /** And purges them: the original goes, and with the row go its jobs and renditions and nothing else. */
  lemma DeletedIsPurged(grace: int, s: System, c: nat, id: Id)
    requires c < |s.cleaners| && s.cleaners[c] == Resting && id in s.db.t.assets
    requires Goes(grace, s, PurgeSteps(grace, s, c, id))
    ensures
      var s' := Leads(grace, s, PurgeSteps(grace, s, c, id));
      && s'.objects == s.objects - {s.db.t.assets[id].vaultKey} && s'.db == s.db.(t := s'.db.t)
      && s'.db.t.assets == s.db.t.assets - {id}
      && (forall j :: j in s'.db.t.jobs <==> j in s.db.t.jobs && s.db.t.jobs[j].asset != id)
      && (forall r :: r in s'.db.t.renditions <==> r in s.db.t.renditions && r.0 != id)
      && (forall j | j in s'.db.t.jobs :: s'.db.t.jobs[j] == s.db.t.jobs[j])
      && (forall r | r in s'.db.t.renditions :: s'.db.t.renditions[r] == s.db.t.renditions[r])
  {
    PurgeLeads(grace, s, c, id);
    PurgedRows(s.db.t, id);
  }

  /** From delete to purge: the sweep takes a deleted asset once more than the grace window has passed, and not
      before. */
  lemma DeletedInTime(grace: int, s: System, c: nat, account: Id, id: Id, d: nat)
    requires c < |s.cleaners| && s.cleaners[c] == Resting && Owns(s.db, account, id)
    ensures Goes(grace, s, [MarkDeleted(account, id), Tick(d)])
    ensures
      var s' := Leads(grace, s, [MarkDeleted(account, id), Tick(d)]);
      && s'.now == s.now + d && s'.cleaners == s.cleaners
      && (Goes(grace, s', PurgeSteps(grace, s', c, id)) <==> d > grace)
  {
    TwoSteps(grace, s, MarkDeleted(account, id), Tick(d));
    var s' := Leads(grace, s, [MarkDeleted(account, id), Tick(d)]);
    DeletedIff(grace, s', c, id);
  }

  /** An object that cannot be deleted leaves everything for a later pass, and so does a row that cannot be settled, but
      for the object. */
  lemma FailedSweepKeepsRow(grace: int, s: System, c: nat)
    requires c < |s.cleaners| && !s.cleaners[c].Resting? && s.cleaners[c].left != []
    ensures !s.cleaners[c].gone ==>
      var s' := Apply(grace, s, DeleteObject(c, false));
      s' == s.(cleaners := s'.cleaners) && s'.cleaners[c].left == s.cleaners[c].left[1..] && !s'.cleaners[c].gone
    ensures s.cleaners[c].gone ==>
      var s' := Apply(grace, s, SettleRow(c, false));
      s' == s.(cleaners := s'.cleaners) && s'.cleaners[c].left == s.cleaners[c].left[1..] && !s'.cleaners[c].gone
  {
  }
}
