/** Every run of the TLS transactions, by any number of bindings and processes,
    stopped anywhere, stays inside the invariant. */
module TlsSafety {
  import opened Prelude
  import opened TlsModel
  import Runs

  /** A step touches one directory, one link and one generation at most. */
  lemma Footprint(d: Disk, s: Step)
    requires Enabled(d, s)
    ensures forall c :: c != StepBinding(s) ==> Dir(Apply(d, s), c) == Dir(d, c)
    ensures forall link :: s.Prepare? || link != Pending(d, s.binding).plan.provider.link ==>
              Active(Apply(d, s), link) == Active(d, link)
    ensures forall g :: s.Prepare? || g != Pending(d, s.binding).plan.generation ==>
              Files(Apply(d, s), g) == Files(d, g)
    ensures d.nextJti <= Apply(d, s).nextJti
  {
  }

  function Files(d: Disk, g: Generation): Option<set<GenerationFile>> {
    if g in d.generations then Some(d.generations[g]) else None
  }

  /** A step reaches another binding neither through its directory, nor through its
      activation link, nor through a generation under that link. */
  lemma ForeignStepFrame(d: Disk, s: Step, c: Binding)
    requires Inv(d) && Enabled(d, s) && c != StepBinding(s)
    ensures Dir(Apply(d, s), c) == Dir(d, c)
    ensures forall link :: Claim(Dir(d, c)) == Some(link) ==>
              Active(Apply(d, s), link) == Active(d, link)
    ensures forall g: Generation :: Claim(Dir(d, c)) == Some(g.link) ==>
              Files(Apply(d, s), g) == Files(d, g)
  {
    Footprint(d, s);
    if !s.Prepare? {
      assert DirInv(d, s.binding);
      assert Claim(Dir(d, s.binding)) != Claim(Dir(d, c));
    }
  }

  lemma ForeignStep(d: Disk, s: Step, c: Binding)
    requires Inv(d) && Enabled(d, s) && c != StepBinding(s)
    ensures DirInv(Apply(d, s), c)
  {
    ForeignStepFrame(d, s, c);
    var d' := Apply(d, s);
    var dir := Dir(d, c);
    assert DirInv(d, c);
    assert d.nextJti <= d'.nextJti;
    forall n | ArchiveUpTo(d, c, dir, n) ensures ArchiveUpTo(d', c, dir, n) {
      forall k | k in dir.archive ensures ArchivedReceipt(d', c, dir, k) {
        assert ArchivedReceipt(d, c, dir, k);
      }
    }
  }

  lemma PrepareOwn(d: Disk, p: Plan)
    requires Inv(d) && PrepareEnabled(d, p)
    ensures DirInv(Apply(d, Prepare(p)), p.binding)
  {
    var b := p.binding;
    var dir := Dir(d, b);
    var d' := Apply(d, Prepare(p));
    assert DirInv(d, b);
    forall k | k in dir.archive ensures ArchivedReceipt(d', b, Dir(d', b), k) {
      assert ArchivedReceipt(d, b, dir, k);
    }
    if dir.current.Some? {
      assert ArchivedReceipt(d, b, dir, dir.current.value.revision);
    }
  }

  lemma AdvanceOwn(d: Disk, b: Binding, phase: Phase)
    requires Inv(d) && Enabled(d, Advance(b, phase))
    ensures DirInv(Apply(d, Advance(b, phase)), b)
  {
    var dir := Dir(d, b);
    var d' := Apply(d, Advance(b, phase));
    var dir' := Dir(d', b);
    assert DirInv(d, b);
    var tx := dir.pending.value;
    assert Promoted(dir, tx.plan) == phase.Committed?;
    forall k | k in dir.archive ensures ArchivedReceipt(d', b, dir', k) {
      assert ArchivedReceipt(d, b, dir, k);
    }
    assert ArchiveUpTo(d', b, dir', if tx.plan.target in dir.archive then tx.plan.target else tx.plan.expected);
    assert PendingInv(d', b, dir', Transaction(tx.plan, phase));
  }

  lemma ArchiveOwn(d: Disk, b: Binding, verifiedAt: int)
    requires Inv(d) && Enabled(d, Archive(b, verifiedAt))
    ensures DirInv(Apply(d, Archive(b, verifiedAt)), b)
  {
    var dir := Dir(d, b);
    var d' := Apply(d, Archive(b, verifiedAt));
    assert DirInv(d, b);
    forall k | k in Dir(d', b).archive ensures ArchivedReceipt(d', b, Dir(d', b), k) {
      if k in dir.archive { assert ArchivedReceipt(d, b, dir, k); }
    }
  }

  lemma PromoteOwn(d: Disk, b: Binding)
    requires Inv(d) && Enabled(d, Promote(b))
    ensures DirInv(Apply(d, Promote(b)), b)
  {
    var dir := Dir(d, b);
    var d' := Apply(d, Promote(b));
    assert DirInv(d, b);
    forall k | k in dir.archive ensures ArchivedReceipt(d', b, Dir(d', b), k) {
      assert ArchivedReceipt(d, b, dir, k);
    }
  }

  lemma SettleOwn(d: Disk, b: Binding, phase: Phase)
    requires Inv(d) && Enabled(d, Settle(b, phase))
    ensures DirInv(Apply(d, Settle(b, phase)), b)
  {
    var dir := Dir(d, b);
    var d' := Apply(d, Settle(b, phase));
    assert DirInv(d, b);
    forall k | k in dir.archive ensures ArchivedReceipt(d', b, Dir(d', b), k) {
      assert ArchivedReceipt(d, b, dir, k);
    }
  }

  lemma RetireOwn(d: Disk, b: Binding)
    requires Inv(d) && Enabled(d, Retire(b))
    ensures DirInv(Apply(d, Retire(b)), b)
  {
    var dir := Dir(d, b);
    var d' := Apply(d, Retire(b));
    assert DirInv(d, b);
    var tx := dir.pending.value;
    assert Promoted(dir, tx.plan) == dir.settled[tx.plan.jti].phase.Committed?;
    forall k | k in dir.archive ensures ArchivedReceipt(d', b, Dir(d', b), k) {
      assert ArchivedReceipt(d, b, dir, k);
    }
  }

  lemma LinkOwn(d: Disk, s: Step)
    requires Inv(d) && Enabled(d, s) && (s.Activate? || s.Restore?)
    ensures DirInv(Apply(d, s), s.binding)
  {
    var b := s.binding;
    var dir := Dir(d, b);
    assert DirInv(d, b);
    forall k | k in dir.archive ensures ArchivedReceipt(Apply(d, s), b, dir, k) {
      assert ArchivedReceipt(d, b, dir, k);
    }
    if dir.current.Some? {
      assert ArchivedReceipt(d, b, dir, dir.current.value.revision);
    }
  }

  lemma StageOwn(d: Disk, s: Step)
    requires Inv(d) && Enabled(d, s) && s.Stage?
    ensures DirInv(Apply(d, s), s.binding)
  {
    var b := s.binding;
    var dir := Dir(d, b);
    assert DirInv(d, b);
    Footprint(d, s);
    forall k | k in dir.archive ensures ArchivedReceipt(Apply(d, s), b, dir, k) {
      assert ArchivedReceipt(d, b, dir, k);
    }
  }

  lemma DiscardOwn(d: Disk, s: Step)
    requires Inv(d) && Enabled(d, s) && s.Discard?
    ensures DirInv(Apply(d, s), s.binding)
  {
    var b := s.binding;
    var dir := Dir(d, b);
    assert DirInv(d, b);
    Footprint(d, s);
    forall k | k in dir.archive ensures ArchivedReceipt(Apply(d, s), b, dir, k) {
      assert ArchivedReceipt(d, b, dir, k);
    }
  }

  lemma OwnStep(d: Disk, s: Step)
    requires Inv(d) && Enabled(d, s)
    ensures DirInv(Apply(d, s), StepBinding(s))
  {
    if s.Prepare? {
      PrepareOwn(d, s.plan);
    } else if s.Activate? || s.Restore? {
      LinkOwn(d, s);
    } else if s.Stage? {
      StageOwn(d, s);
    } else if s.Discard? {
      DiscardOwn(d, s);
    } else {
      match s
      case Advance(b, phase) => AdvanceOwn(d, b, phase);
      case Archive(b, verifiedAt) => ArchiveOwn(d, b, verifiedAt);
      case Promote(b) => PromoteOwn(d, b);
      case Settle(b, phase) => SettleOwn(d, b, phase);
      case Retire(b) => RetireOwn(d, b);
    }
  }

  lemma ClaimsKept(d: Disk, s: Step)
    requires Inv(d) && Enabled(d, s)
    ensures OneOwner(Apply(d, s))
  {
    var b := StepBinding(s);
    var d' := Apply(d, s);
    forall c | c != b
      ensures Dir(d', c) == Dir(d, c)
      ensures Claim(Dir(d', b)).None? || Claim(Dir(d', b)) != Claim(Dir(d, c))
    {
      ForeignStepFrame(d, s, c);
      OwnClaim(d, s, c);
    }
  }

  /** The link a binding claims after a step is free of every other claim. */
  lemma OwnClaim(d: Disk, s: Step, c: Binding)
    requires Inv(d) && Enabled(d, s) && c != StepBinding(s)
    ensures var mine := Claim(Dir(Apply(d, s), StepBinding(s)));
            mine.Some? ==> mine != Claim(Dir(d, c))
  {
    assert DirInv(d, StepBinding(s)) && DirInv(d, c);
    assert Claim(Dir(d, StepBinding(s))).Some? ==> Claim(Dir(d, StepBinding(s))) != Claim(Dir(d, c));
    if s.Prepare? {
      assert c in d.dirs || Dir(d, c) == EMPTY_DIR;
    }
  }

  lemma StepKeepsInv(d: Disk, s: Step)
    requires Inv(d) && Enabled(d, s)
    ensures Inv(Apply(d, s))
  {
    OwnStep(d, s);
    forall c ensures DirInv(Apply(d, s), c) {
      if c != StepBinding(s) { ForeignStep(d, s, c); }
    }
    ClaimsKept(d, s);
  }

  lemma {:induction false} RunKeepsInv(log: seq<Step>)
    requires Runs.IsRun(MACHINE, log)
    ensures Inv(Runs.After(MACHINE, log))
  {
    forall d, s | Inv(d) && Enabled(d, s) ensures Inv(Apply(d, s)) {
      StepKeepsInv(d, s);
    }
    Runs.Inductive(MACHINE, Inv, log);
  }

  // ------------------------------------------------------------- theorems

  /** Once nothing is pending, the link, the current receipt, the revision archive, the
      transaction archive and the generation directories tell one story. */
  lemma {:induction false} CrashAtomicity(log: seq<Step>, b: Binding)
    requires Runs.IsRun(MACHINE, log)
    requires Dir(Runs.After(MACHINE, log), b).pending.None?
    ensures var d := Runs.After(MACHINE, log);
            var dir := Dir(d, b);
            && (forall k :: k in dir.archive <==> 1 <= k <= Revision(dir))
            && (dir.current.Some? ==>
                  var r := dir.current.value;
                  && r.revision in dir.archive && dir.archive[r.revision] == r
                  && Active(d, r.provider.link) == Some(r.generation)
                  && r.jti in dir.settled && dir.settled[r.jti].phase.Committed?
                  && r == ReceiptOf(dir.settled[r.jti].plan, r.verifiedAt))
  {
    RunKeepsInv(log);
    assert DirInv(Runs.After(MACHINE, log), b);
  }

  /** Chain, key and manifest are there, and the proxy's two files if there is one. */
  predicate Whole(d: Disk, g: Generation, evidence: Evidence) {
    && g in d.generations && FullChain in d.generations[g] && PrivateKey in d.generations[g]
    && Manifest in d.generations[g]
    && (evidence.proxy.Some? ==> ProxyTemplate in d.generations[g] && ProxyConf in d.generations[g])
  }

  /** No generation an archived receipt names is ever removed or left incomplete, and no
      link ever points at an incomplete generation. */
  lemma {:induction false} MaterialSurvives(log: seq<Step>, b: Binding)
    requires Runs.IsRun(MACHINE, log)
    ensures var d := Runs.After(MACHINE, log);
            var dir := Dir(d, b);
            && (forall k :: k in dir.archive ==>
                  dir.archive[k].revision == k
                  && Whole(d, dir.archive[k].generation, dir.archive[k].evidence))
            && (dir.pending.Some?
                && Active(d, dir.pending.value.plan.provider.link) == Some(dir.pending.value.plan.generation) ==>
                  Whole(d, dir.pending.value.plan.generation, dir.pending.value.plan.evidence))
  {
    RunKeepsInv(log);
    var d := Runs.After(MACHINE, log);
    assert DirInv(d, b);
    forall k | k in Dir(d, b).archive ensures ArchivedReceipt(d, b, Dir(d, b), k) {}
  }

  /** An activation link has one pending transaction at most and one committed owner at
      most, and the two are the same binding. */
  lemma {:induction false} LinkOwnership(log: seq<Step>, b: Binding, c: Binding, link: Link)
    requires Runs.IsRun(MACHINE, log) && b != c
    ensures var d := Runs.After(MACHINE, log);
            !(Uses(Dir(d, b), link) && Uses(Dir(d, c), link))
  {
    RunKeepsInv(log);
    var d := Runs.After(MACHINE, log);
    assert DirInv(d, b) && DirInv(d, c);
    assert Claim(Dir(d, b)).Some? ==> Claim(Dir(d, b)) != Claim(Dir(d, c));
  }

  predicate Uses(dir: BindingDir, link: Link) {
    || (dir.pending.Some? && dir.pending.value.plan.provider.link == link)
    || (dir.current.Some? && dir.current.value.provider.link == link)
  }

  /** Some binding answers for every link that exists. */
  ghost predicate LinksOwned(d: Disk) {
    forall link :: link in d.links ==> exists b :: Claim(Dir(d, b)) == Some(link)
  }

  lemma StepKeepsLinksOwned(d: Disk, s: Step)
    requires Inv(d) && LinksOwned(d) && Enabled(d, s)
    ensures LinksOwned(Apply(d, s))
  {
    var d' := Apply(d, s);
    var mine := StepBinding(s);
    Footprint(d, s);
    assert DirInv(d, mine);
    forall link | link in d'.links ensures exists b :: Claim(Dir(d', b)) == Some(link) {
      if link in d.links {
        var b :| Claim(Dir(d, b)) == Some(link);
        OwnerStays(d, s, b, link);
        assert Claim(Dir(d', b)) == Some(link);
      } else {
        assert Claim(Dir(d', mine)) == Some(link);
      }
    }
  }

  lemma OwnerStays(d: Disk, s: Step, b: Binding, link: Link)
    requires Inv(d) && Enabled(d, s) && Claim(Dir(d, b)) == Some(link) && link in Apply(d, s).links
    ensures Claim(Dir(Apply(d, s), b)) == Some(link)
  {
    Footprint(d, s);
    assert DirInv(d, b);
  }

  /** A link nobody has a receipt or a pending transaction for does not exist. */
  lemma {:induction false} NoStrayLink(log: seq<Step>, link: Link)
    requires Runs.IsRun(MACHINE, log) && link in Runs.After(MACHINE, log).links
    ensures exists b :: Uses(Dir(Runs.After(MACHINE, log), b), link)
  {
    var inv := (d: Disk) => Inv(d) && LinksOwned(d);
    forall d, s | inv(d) && Enabled(d, s) ensures inv(Apply(d, s)) {
      StepKeepsInv(d, s);
      StepKeepsLinksOwned(d, s);
    }
    Runs.Inductive(MACHINE, inv, log);
    var b :| Claim(Dir(Runs.After(MACHINE, log), b)) == Some(link);
    assert Uses(Dir(Runs.After(MACHINE, log), b), link);
  }

  /** A pending transaction or an archived receipt of the binding names the generation. */
  predicate Names(dir: BindingDir, g: Generation) {
    || (dir.pending.Some? && dir.pending.value.plan.generation == g)
    || exists k :: k in dir.archive && dir.archive[k].generation == g
  }

  ghost predicate GenerationsNamed(d: Disk) {
    forall g :: g in d.generations ==> exists b :: Names(Dir(d, b), g)
  }

  lemma StepKeepsNames(d: Disk, s: Step, b: Binding, g: Generation)
    requires Inv(d) && Enabled(d, s) && g in Apply(d, s).generations && Names(Dir(d, b), g)
    ensures Names(Dir(Apply(d, s), b), g)
  {
    Footprint(d, s);
    assert DirInv(d, b);
    var dir, dir' := Dir(d, b), Dir(Apply(d, s), b);
    if k :| k in dir.archive && dir.archive[k].generation == g {
      assert k in dir'.archive && dir'.archive[k].generation == g;
    }
  }

  /** No generation is left behind: each one there belongs to a pending transaction or to an
      archived receipt, of the binding that claims its link. */
  lemma {:induction false} NoStrayGeneration(log: seq<Step>, g: Generation)
    requires Runs.IsRun(MACHINE, log) && g in Runs.After(MACHINE, log).generations
    ensures var d := Runs.After(MACHINE, log);
            exists b :: Names(Dir(d, b), g) && Claim(Dir(d, b)) == Some(g.link)
  {
    var inv := (d: Disk) => Inv(d) && GenerationsNamed(d);
    forall d, s | inv(d) && Enabled(d, s) ensures inv(Apply(d, s)) {
      StepKeepsInv(d, s);
      StepKeepsGenerations(d, s);
    }
    Runs.Inductive(MACHINE, inv, log);
    var d := Runs.After(MACHINE, log);
    var b :| Names(Dir(d, b), g);
    assert DirInv(d, b);
    if k :| k in Dir(d, b).archive && Dir(d, b).archive[k].generation == g {
      assert ArchivedReceipt(d, b, Dir(d, b), k);
    }
  }

  lemma StepKeepsGenerations(d: Disk, s: Step)
    requires Inv(d) && GenerationsNamed(d) && Enabled(d, s)
    ensures GenerationsNamed(Apply(d, s))
  {
    forall g | g in Apply(d, s).generations ensures exists b :: Names(Dir(Apply(d, s), b), g) {
      if g in d.generations {
        var b :| Names(Dir(d, b), g);
        StepKeepsNames(d, s, b, g);
      } else {
        assert Names(Dir(Apply(d, s), s.binding), g);
      }
    }
  }

  /** The generation of a plan that may be journaled has no directory yet. */
  lemma {:induction false} NewGenerationIsFree(log: seq<Step>, p: Plan)
    requires Runs.IsRun(MACHINE, log) && PrepareEnabled(Runs.After(MACHINE, log), p)
    ensures p.generation !in Runs.After(MACHINE, log).generations
  {
    RunKeepsInv(log);
    var d := Runs.After(MACHINE, log);
    forall g | g in d.generations ensures g != p.generation {
      NoStrayGeneration(log, g);
      var b :| Names(Dir(d, b), g) && Claim(Dir(d, b)) == Some(g.link);
      NamedIsAnother(d, b, g, p);
    }
  }

  lemma NamedIsAnother(d: Disk, b: Binding, g: Generation, p: Plan)
    requires Inv(d) && Names(Dir(d, b), g) && Claim(Dir(d, b)) == Some(g.link) && PrepareEnabled(d, p)
    ensures g != p.generation
  {
    assert DirInv(d, b) && DirInv(d, p.binding);
    if k :| k in Dir(d, b).archive && Dir(d, b).archive[k].generation == g {
      assert ArchivedReceipt(d, b, Dir(d, b), k);
    }
  }

  /** One step commits at most one receipt, the next revision of one binding, and that
      step is the write of receipts/<target>. Nothing archived is ever rewritten. */
  lemma OneCommitPoint(d: Disk, s: Step, b: Binding)
    requires Inv(d) && Enabled(d, s)
    ensures var was, now := Dir(d, b).archive, Dir(Apply(d, s), b).archive;
            if s.Archive? && s.binding == b then
              var tx := Dir(d, b).pending.value;
              && tx.plan.target !in was && (forall k :: k in was <==> 1 <= k < tx.plan.target)
              && now == was[tx.plan.target := ReceiptOf(tx.plan, s.verifiedAt)]
            else now == was
  {
    if b != StepBinding(s) {
      ForeignStepFrame(d, s, b);
    } else {
      assert DirInv(d, b);
    }
  }

  lemma {:induction false} ArchiveIsAppendOnly(log: seq<Step>, more: seq<Step>, b: Binding)
    requires Runs.IsRun(MACHINE, log + more)
    ensures Runs.IsRun(MACHINE, log)
    ensures var before := Dir(Runs.After(MACHINE, log), b).archive;
            var after := Dir(Runs.After(MACHINE, log + more), b).archive;
            forall k :: k in before ==> k in after && after[k] == before[k]
  {
    if more == [] {
      assert log + more == log;
    } else {
      var init := more[..|more| - 1];
      assert (log + more)[..|log + more| - 1] == log + init;
      ArchiveIsAppendOnly(log, init, b);
      RunKeepsInv(log + init);
      OneCommitPoint(Runs.After(MACHINE, log + init), more[|more| - 1], b);
    }
  }

  /** From every state a run can leave behind, recovery goes forward exactly when
      receipts/<target> was written and back otherwise. It never refuses because the
      receipts or the link are not the ones it expects. */
  lemma {:induction false} DecisionPoint(log: seq<Step>, b: Binding, proxyIntact: bool)
    requires Runs.IsRun(MACHINE, log)
    requires Dir(Runs.After(MACHINE, log), b).pending.Some?
    ensures var d := Runs.After(MACHINE, log);
            var dir := Dir(d, b);
            var p := dir.pending.value.plan;
            Decide(dir, Active(d, p.provider.link), proxyIntact) ==
              if BlockedByUnreadable(dir) then Refuse(ReceiptUnreadable)
              else if p.target !in dir.archive then Back
              else if proxyIntact then Forward(dir.archive[p.target])
              else Refuse(ProxyDrift)
  {
    RunKeepsInv(log);
    assert DirInv(Runs.After(MACHINE, log), b);
  }

  /** Where a pending transaction stands on disk. While its durable phase is before
      `Activating` the link still is the earlier one. */
  lemma {:induction false} PendingStands(log: seq<Step>, b: Binding)
    requires Runs.IsRun(MACHINE, log)
    requires Dir(Runs.After(MACHINE, log), b).pending.Some?
    ensures var d := Runs.After(MACHINE, log);
            var dir := Dir(d, b);
            var tx := dir.pending.value;
            var active := Active(d, tx.plan.provider.link);
            && tx.plan.binding == b && tx.plan.generation.link == tx.plan.provider.link
            && (if tx.plan.target in dir.archive then
                  active == Some(tx.plan.generation) && dir.archive[tx.plan.target].jti == tx.plan.jti
                else
                  && MatchesPrevious(tx.plan, dir.current)
                  && (!MayHaveActivated(tx.phase) ==> active == tx.plan.previousGeneration)
                  && (active == tx.plan.previousGeneration || active == Some(tx.plan.generation)))
  {
    RunKeepsInv(log);
    assert DirInv(Runs.After(MACHINE, log), b);
  }
}
