/** No orphans: whatever is marked as owned by an instance, the instance is
    still there and still holds its finalizer. */
module Orphans {
  import opened Wrappers
  import opened Cluster
  import opened Install
  import opened OlsConfig
  import opened Reconcile
  import opened Runs

  predicate Writes(s: Stage) {
    || s.WriteSub? || s.ApprovePlan? || s.AdoptCsv? || s.WriteConfig? || s.WritePing?
    || s.ReleaseConfig? || s.DropConfig? || s.DropPlan? || s.DropCsv? || s.Finish?
  }

  lemma ReadsOnly(st: Settings, u: Uid, c: Cluster, p: Pass, x: Input)
    requires !Writes(p.stage)
    ensures PassStep(st, u, c, p, x).0 == c
  {
  }

  /** What the step of instance v's pass can do to instance u's claims. */
  ghost predicate Guarantee(u: Uid, v: Uid, p: Pass, c: Cluster, c': Cluster) {
    && (Held(c, u) ==> Held(c', u) || (u == v && p.Releasing()))
    && (Labelled(c', u) ==> Labelled(c, u) || (u == v && p.stage.WriteConfig?))
    && (CsvsFrom(u, c.csvs, c'.csvs) || (u == v && p.stage.AdoptCsv?))
  }

  lemma MergedOwner(st: Settings, v: Uid, p: Pass, read: Option<OLSConfig>, patched: OLSConfig, cur: Option<OLSConfig>)
    requires ClaimOk(st, v, read, patched) && read.None? == cur.None?
    ensures var m := Merged(st, v, p, read, patched, cur);
            m.Owner() == v || (cur.Some? && m.Owner() == cur.value.Owner())
  {
  }

  lemma AdoptGuarantee(u: Uid, v: Uid, c: Cluster, p: Pass, x: Input)
    requires p.stage.AdoptCsv?
    ensures Guarantee(u, v, p, c, AdoptStep(v, c, p, p.stage.csv, x).0)
  {
    var csv := p.stage.csv;
    if u != v && csv in c.csvs { ReplaceElements(c.csvs, csv, csv.(owners := InstanceOwner(v, p.base))); }
  }

  lemma DropCsvGuarantee(u: Uid, v: Uid, c: Cluster, p: Pass, x: Input)
    requires p.stage.DropCsv?
    ensures Guarantee(u, v, p, c, DropCsvStep(c, p, p.stage.csv, x).0)
  {
    DeleteCsvElements(c.csvs, p.stage.csv.key);
  }

  lemma ConfigGuarantee(st: Settings, u: Uid, v: Uid, c: Cluster, p: Pass, x: Input)
    requires PassOk(st, v, p) && p.stage.WriteConfig?
    ensures Guarantee(u, v, p, c, PassStep(st, v, c, p, x).0)
  {
    var merged := Merged(st, v, p, p.stage.read, p.stage.patched, c.config);
    assert PassStep(st, v, c, p, x) == WriteConfigStep(c, p, p.stage.read, p.stage.patched, merged, x);
    if p.stage.read.None? == c.config.None? {
      MergedOwner(st, v, p, p.stage.read, p.stage.patched, c.config);
    }
    WriteGuarantee(u, v, c, p, p.stage.read, p.stage.patched, merged, x);
  }

  lemma WriteGuarantee(u: Uid, v: Uid, c: Cluster, p: Pass, read: Option<OLSConfig>, patched: OLSConfig, merged: OLSConfig, x: Input)
    requires p.stage.WriteConfig?
    requires read.None? == c.config.None? ==> merged.Owner() == v || (c.config.Some? && merged.Owner() == c.config.value.Owner())
    ensures Guarantee(u, v, p, c, WriteConfigStep(c, p, read, patched, merged, x).0)
  {
  }

  lemma FinishGuarantee(u: Uid, v: Uid, c: Cluster, p: Pass, x: Input)
    requires p.stage.Finish?
    ensures Guarantee(u, v, p, c, FinishStep(v, c, p, x).0)
  {
  }

  lemma OtherWritesGuarantee(st: Settings, u: Uid, v: Uid, c: Cluster, p: Pass, x: Input)
    requires p.stage.WriteSub? || p.stage.ApprovePlan? || p.stage.WritePing? || p.stage.DropPlan? || p.stage.ReleaseConfig? || p.stage.DropConfig?
    ensures Guarantee(u, v, p, c, PassStep(st, v, c, p, x).0)
  {
    var c' := PassStep(st, v, c, p, x).0;
    assert c'.instances == c.instances && c'.csvs == c.csvs;
    if c'.config.Some? && !p.stage.WritePing? { assert c.config.Some? && c'.config.value.labels == c.config.value.labels; }
  }

  lemma StepGuarantee(st: Settings, u: Uid, v: Uid, c: Cluster, p: Pass, x: Input)
    requires PassOk(st, v, p)
    ensures Guarantee(u, v, p, c, PassStep(st, v, c, p, x).0)
  {
    if p.stage.AdoptCsv? {
      AdoptGuarantee(u, v, c, p, x);
    } else if p.stage.DropCsv? {
      DropCsvGuarantee(u, v, c, p, x);
    } else if p.stage.WriteConfig? {
      ConfigGuarantee(st, u, v, c, p, x);
    } else if p.stage.Finish? {
      FinishGuarantee(u, v, c, p, x);
    } else if Writes(p.stage) {
      OtherWritesGuarantee(st, u, v, c, p, x);
    } else {
      ReadsOnly(st, v, c, p, x);
    }
  }

  // ----------------------------------------------------------- the invariants

  /** The OLSConfig is never labelled with an instance that is gone or no
      longer holds its finalizer, and a pass about to let go knows that. */
  ghost predicate NoOrphan(u: Uid, c: Cluster, p: Pass) {
    && (Labelled(c, u) ==> Held(c, u))
    && (Installing(p.stage) || Configuring(p.stage) ==> Held(c, u))
    && (Uninstalling(p.stage) || p.Releasing() ==> !Labelled(c, u))
  }

  /** If u owns any CSV, the first matching CSV is one it owns. */
  predicate OwnedFirst(c: Cluster, u: Uid) {
    OwnsCsv(c, u) ==> FirstCsv(c.csvs).Some? && OwnedBy(FirstCsv(c.csvs).value.owners, u)
  }

  /** The same for CSVs. */
  ghost predicate NoOrphanCsv(u: Uid, c: Cluster, p: Pass) {
    && (OwnsCsv(c, u) ==> Held(c, u))
    && (p.stage.ConfirmNoPlan? || p.Releasing() ==> !OwnsCsv(c, u))
  }

  /** Which stages can lead to which, read off what is known of a pass
      before and after a step. */
  lemma Flow(st: Settings, u: Uid, c: Cluster, p: Pass, c': Cluster, p': Pass)
    requires PassOk(st, u, p) && Good(st, u, c, p, (c', p'))
    requires !p.stage.Idle? && (p.stage.Finish? ==> p'.stage.Idle?)
    ensures Installing(p'.stage) || Configuring(p'.stage) ==> Installing(p.stage) || Configuring(p.stage)
    ensures Uninstalling(p'.stage) ==> Uninstalling(p.stage) || (Removing(p.stage) && c.config.None?)
    ensures p'.Releasing() ==> Uninstalling(p.stage)
  {
  }

  lemma StepNoOrphan(st: Settings, u: Uid, c: Cluster, p: Pass, c': Cluster, p': Pass)
    requires PassOk(st, u, p) && Good(st, u, c, p, (c', p'))
    requires !p.stage.Idle? && (p.stage.Finish? ==> p'.stage.Idle?)
    requires Guarantee(u, u, p, c, c') && NoOrphan(u, c, p)
    ensures NoOrphan(u, c', p')
  {
    Flow(st, u, c, p, c', p');
  }

  lemma OwnStepNoOrphan(st: Settings, u: Uid, c: Cluster, p: Pass, x: Input)
    requires PassOk(st, u, p) && NoOrphan(u, c, p) && !p.stage.Idle?
    ensures NoOrphan(u, PassStep(st, u, c, p, x).0, PassStep(st, u, c, p, x).1)
  {
    StepOk(st, u, c, p, x);
    StepGuarantee(st, u, u, c, p, x);
    var r := PassStep(st, u, c, p, x);
    StepNoOrphan(st, u, c, p, r.0, r.1);
  }

  /** With the first-match rule u owns no CSV once it is told so. */
  lemma ClearMeansNone(st: Settings, u: Uid, c: Cluster, p: Pass, e: Event, c': Cluster)
    requires OwnedFirst(c, u) && e.CsvClear? && Fact(st, u, p, e, c, c')
    ensures !OwnsCsv(c, u)
  {
  }

  /** Where a pass may be after it saw the installation gone. */
  lemma ClearStage(st: Settings, u: Uid, p: Pass)
    requires PassOk(st, u, p) && p.log.Then? && p.log.event.CsvClear?
    ensures p.stage.Idle? || p.stage.ConfirmNoPlan? || p.stage.Finish?
  {
  }

  lemma ClearLogged(st: Settings, u: Uid, p: Pass)
    requires PassOk(st, u, p) && (p.stage.ConfirmNoPlan? || p.Releasing())
    ensures p.log.Then? && p.log.event.CsvClear?
  {
  }

  /** What a step towards the release of the instance has just seen. */
  lemma ClearSeen(st: Settings, u: Uid, c: Cluster, p: Pass, c': Cluster, p': Pass)
    requires PassOk(st, u, p) && PassOk(st, u, p') && Logged(st, u, p, p', c, c')
    requires !p.stage.Idle? && (p.stage.Finish? ==> p'.stage.Idle?)
    requires p'.stage.ConfirmNoPlan? || p'.Releasing()
    ensures p.stage.ConfirmNoPlan? || (p'.log != p.log && p'.log.event.CsvClear? && Fact(st, u, p, p'.log.event, c, c'))
  {
    ClearLogged(st, u, p');
    if p'.log == p.log { ClearStage(st, u, p); }
  }

  lemma StepNoOrphanCsv(st: Settings, u: Uid, c: Cluster, p: Pass, c': Cluster, p': Pass)
    requires PassOk(st, u, p) && Good(st, u, c, p, (c', p'))
    requires !p.stage.Idle? && (p.stage.Finish? ==> p'.stage.Idle?)
    requires Guarantee(u, u, p, c, c') && NoOrphan(u, c, p) && NoOrphanCsv(u, c, p) && OwnedFirst(c, u)
    ensures NoOrphanCsv(u, c', p')
  {
    if CsvsFrom(u, c.csvs, c'.csvs) { CsvsFromOwns(u, c, c'); }
    if p'.stage.ConfirmNoPlan? || p'.Releasing() {
      ClearSeen(st, u, c, p, c', p');
      if !p.stage.ConfirmNoPlan? { ClearMeansNone(st, u, c, p, p'.log.event, c'); }
    }
  }

  lemma OwnStepNoOrphanCsv(st: Settings, u: Uid, c: Cluster, p: Pass, x: Input)
    requires PassOk(st, u, p) && NoOrphan(u, c, p) && NoOrphanCsv(u, c, p) && OwnedFirst(c, u) && !p.stage.Idle?
    ensures NoOrphanCsv(u, PassStep(st, u, c, p, x).0, PassStep(st, u, c, p, x).1)
  {
    StepOk(st, u, c, p, x);
    StepGuarantee(st, u, u, c, p, x);
    var r := PassStep(st, u, c, p, x);
    StepNoOrphanCsv(st, u, c, p, r.0, r.1);
  }

  /** u comes to own no CSV of another product. */
  lemma StepOwnsOnly(st: Settings, u: Uid, c: Cluster, p: Pass, x: Input)
    requires PassOk(st, u, p) && OwnsOnlyMatches(c.csvs, u)
    ensures OwnsOnlyMatches(PassStep(st, u, c, p, x).0.csvs, u)
  {
    StepGuarantee(st, u, u, c, p, x);
    var c' := PassStep(st, u, c, p, x).0;
    if p.stage.AdoptCsv? {
      assert PassStep(st, u, c, p, x) == AdoptStep(u, c, p, p.stage.csv, x);
      if p.stage.csv in c.csvs { ReplaceElements(c.csvs, p.stage.csv, p.stage.csv.(owners := InstanceOwner(u, p.base))); }
    } else {
      CsvsFromOwns(u, c, c');
    }
  }
}
