/** `apply` compares the clock with the transaction's expiry before its public check and
    not after it, then writes the time of the commit into the receipt. Loading the receipt
    does compare. This file says exactly when that matters and what it costs. */
module TlsExpiry {
  import opened Prelude
  import opened TlsModel
  import opened TlsSafety
  import Runs

  predicate InLifetime(r: Receipt) {
    r.createdAt <= r.verifiedAt <= r.createdAt + TTL && r.verifiedAt < r.evidence.notAfter
  }

  /** An apply with exactly this evidence, through this provider, may be journaled. */
  ghost predicate CanStart(d: Disk, b: Binding, provider: Provider, evidence: Evidence) {
    exists p: Plan :: p.binding == b && p.provider == provider && p.evidence == evidence && PrepareEnabled(d, p)
  }

  /** After a commit an apply can start for the binding exactly when it keeps the activation
      link, the receipt was verified inside its transaction's lifetime and before its
      certificate ended, and the source, the proxy, the provider configuration or the trust
      anchors are new. After a late receipt none can start at all. */
  lemma {:induction false} NextApplyCanStart(log: seq<Step>, b: Binding, provider: Provider, evidence: Evidence)
    requires Runs.IsRun(MACHINE, log)
    requires var dir := Dir(Runs.After(MACHINE, log), b); dir.pending.None? && dir.current.Some?
    ensures var d := Runs.After(MACHINE, log);
            var r := Dir(d, b).current.value;
            CanStart(d, b, provider, evidence) <==>
              && provider.link == r.provider.link && InLifetime(r)
              && (|| evidence.source != r.evidence.source || evidence.proxy != r.evidence.proxy
                  || evidence.providerConfig != r.evidence.providerConfig
                  || evidence.trustAnchors != r.evidence.trustAnchors)
  {
    RunKeepsInv(log);
    var d := Runs.After(MACHINE, log);
    var dir := Dir(d, b);
    var r := dir.current.value;
    assert DirInv(d, b);
    assert ArchivedReceipt(d, b, dir, r.revision);
    assert Readable(r) <==> InLifetime(r);
    if provider.link == r.provider.link && InLifetime(r) && !SameSource(r, evidence) {
      Unfenced(d, b);
      var p := Plan(d.nextJti, b, r.revision, r.revision + 1, evidence, provider,
                    GenerationName(provider, r.revision + 1, evidence, d.nextJti),
                    Some(r.generation), Some(r.evidence.leaf), Some(Sha256(r)), 0, TTL);
      assert p.binding == b && p.provider == provider && p.evidence == evidence && PrepareEnabled(d, p);
    }
  }

  lemma Unfenced(d: Disk, b: Binding)
    requires Inv(d) && Dir(d, b).pending.None? && Dir(d, b).current.Some?
    ensures !FencedByOther(d, Dir(d, b).current.value.provider.link, b)
  {
    var link := Dir(d, b).current.value.provider.link;
    forall other ensures !Fences(d, other, link, b) {
      assert other != b ==> Claim(Dir(d, b)) != Claim(Dir(d, other));
    }
  }

  /** A receipt verified too late closes its binding for good: no later step of any
      process changes that binding's directory again. */
  lemma {:induction false} LateReceiptIsFinal(log: seq<Step>, more: seq<Step>, b: Binding)
    requires Runs.IsRun(MACHINE, log + more)
    requires var dir := Dir(Runs.After(MACHINE, log), b);
             dir.pending.None? && dir.current.Some? && !InLifetime(dir.current.value)
    ensures Runs.IsRun(MACHINE, log)
    ensures Dir(Runs.After(MACHINE, log + more), b) == Dir(Runs.After(MACHINE, log), b)
  {
    Runs.Prefix(MACHINE, log, more);
    if more == [] {
      assert log + more == log;
    } else {
      var init := more[..|more| - 1];
      assert (log + more)[..|log + more| - 1] == log + init;
      LateReceiptIsFinal(log, init, b);
      RunKeepsInv(log + init);
      ClosedBindingStays(Runs.After(MACHINE, log + init), more[|more| - 1], b);
    }
  }

  lemma ClosedBindingStays(d: Disk, s: Step, b: Binding)
    requires Inv(d) && Enabled(d, s) && Dir(d, b).pending.None? && Dir(d, b).current.Some?
    requires !InLifetime(Dir(d, b).current.value)
    ensures Dir(Apply(d, s), b) == Dir(d, b)
  {
    assert DirInv(d, b);
    assert ArchivedReceipt(d, b, Dir(d, b), Dir(d, b).current.value.revision);
    assert StepBinding(s) != b;
    Footprint(d, s);
  }

  const SITE := Binding("deployment", "tenant", "tenant.example")
  const PROVIDER := Provider("/etc/proxy/current", "https://tenant.example/")
  const EVIDENCE := Evidence(ExternalFiles(1, 2), None, 3, 4, 1_000_000, 5, 6)
  const FIRST := Plan(0, SITE, 0, 1, EVIDENCE, PROVIDER, GenerationName(PROVIDER, 1, EVIDENCE, 0),
                      None, None, None, 0, TTL)
  const LATE: int := TTL + 1

  const G := FIRST.generation
  const LATE_RECEIPT := ReceiptOf(FIRST, LATE)
  const WHOLE: set<GenerationFile> := {} + {FullChain} + {PrivateKey} + {Manifest}

  function OneBinding(dir: BindingDir, links: map<Link, Generation>, files: set<GenerationFile>): Disk {
    Disk(map[SITE := dir], links, map[G := files], 1)
  }

  function Journaled(phase: Phase): BindingDir {
    BindingDir(Some(Transaction(FIRST, phase)), None, map[], map[])
  }

  const LIVE := map[PROVIDER.link := G]
  const LATE_ARCHIVE := map[1 := LATE_RECEIPT]
  const LATE_SETTLED := map[0 := Transaction(FIRST, Committed)]
  const CLOSED := BindingDir(None, Some(LATE_RECEIPT), LATE_ARCHIVE, LATE_SETTLED)

  // The steps of an uninterrupted first apply whose public check takes sixteen minutes,
  // each with the disk it leaves.

  function Staging(): seq<(Step, Disk)> {
    [(Prepare(FIRST), Disk(map[SITE := Journaled(Prepared)], map[], map[], 1)),
     (Stage(SITE, None), OneBinding(Journaled(Prepared), map[], {})),
     (Stage(SITE, Some(FullChain)), OneBinding(Journaled(Prepared), map[], {} + {FullChain})),
     (Stage(SITE, Some(PrivateKey)), OneBinding(Journaled(Prepared), map[], {} + {FullChain} + {PrivateKey})),
     (Stage(SITE, Some(Manifest)), OneBinding(Journaled(Prepared), map[], WHOLE))]
  }

  function GoingLive(): seq<(Step, Disk)> {
    [(Advance(SITE, Staged), OneBinding(Journaled(Staged), map[], WHOLE)),
     (Advance(SITE, Activating), OneBinding(Journaled(Activating), map[], WHOLE)),
     (Activate(SITE), OneBinding(Journaled(Activating), LIVE, WHOLE)),
     (Advance(SITE, Activated), OneBinding(Journaled(Activated), LIVE, WHOLE)),
     (Advance(SITE, Reloaded), OneBinding(Journaled(Reloaded), LIVE, WHOLE)),
     (Advance(SITE, Verified), OneBinding(Journaled(Verified), LIVE, WHOLE))]
  }

  const PROMOTED := CLOSED.(pending := Some(Transaction(FIRST, Verified)), settled := map[])

  function Committing(): seq<(Step, Disk)> {
    [(Archive(SITE, LATE), OneBinding(Journaled(Verified).(archive := LATE_ARCHIVE), LIVE, WHOLE)),
     (Promote(SITE), OneBinding(PROMOTED, LIVE, WHOLE))]
  }

  function Closing(): seq<(Step, Disk)> {
    var committed := Some(Transaction(FIRST, Committed));
    [(Advance(SITE, Committed), OneBinding(PROMOTED.(pending := committed), LIVE, WHOLE)),
     (Settle(SITE, Committed), OneBinding(CLOSED.(pending := committed), LIVE, WHOLE)),
     (Retire(SITE), OneBinding(CLOSED, LIVE, WHOLE))]
  }

  lemma StagingPlays() returns (log: seq<Step>)
    ensures Runs.IsRun(MACHINE, log)
    ensures Runs.After(MACHINE, log) == OneBinding(Journaled(Prepared), map[], WHOLE)
  {
    forall i | 0 <= i < |Staging()| ensures Runs.PlaysAt(MACHINE, FRESH, Staging(), i) {
    }
    Runs.Play(MACHINE, [], Staging());
    log := [] + Runs.StepsOf(Staging());
  }

  lemma GoingLivePlays()
    ensures Runs.Plays(MACHINE, OneBinding(Journaled(Prepared), map[], WHOLE), GoingLive())
    ensures GoingLive()[5].1 == OneBinding(Journaled(Verified), LIVE, WHOLE)
  {
    var from := OneBinding(Journaled(Prepared), map[], WHOLE);
    forall i | 0 <= i < |GoingLive()| ensures Runs.PlaysAt(MACHINE, from, GoingLive(), i) {
    }
  }

  lemma CommittingPlays()
    ensures Runs.Plays(MACHINE, OneBinding(Journaled(Verified), LIVE, WHOLE), Committing())
  {
    var from := OneBinding(Journaled(Verified), LIVE, WHOLE);
    forall i | 0 <= i < |Committing()| ensures Runs.PlaysAt(MACHINE, from, Committing(), i) {
    }
  }

  lemma ClosingPlays()
    ensures Runs.Plays(MACHINE, OneBinding(PROMOTED, LIVE, WHOLE), Closing())
  {
    var from := OneBinding(PROMOTED, LIVE, WHOLE);
    forall i | 0 <= i < |Closing()| ensures Runs.PlaysAt(MACHINE, from, Closing(), i) {
    }
  }

  lemma Follow(before: seq<Step>, from: Disk, script: seq<(Step, Disk)>) returns (log: seq<Step>)
    requires Runs.IsRun(MACHINE, before) && Runs.After(MACHINE, before) == from
    requires Runs.Plays(MACHINE, from, script) && script != []
    ensures Runs.IsRun(MACHINE, log) && Runs.After(MACHINE, log) == script[|script| - 1].1
  {
    Runs.Play(MACHINE, before, script);
    log := before + Runs.StepsOf(script);
  }

  /** It is a run, and it leaves a current receipt that nothing can load. */
  lemma LateApplyHappens() returns (log: seq<Step>)
    ensures Runs.IsRun(MACHINE, log)
    ensures Dir(Runs.After(MACHINE, log), SITE) == CLOSED && !InLifetime(LATE_RECEIPT)
  {
    log := StagingPlays();
    GoingLivePlays();
    log := Follow(log, OneBinding(Journaled(Prepared), map[], WHOLE), GoingLive());
    CommittingPlays();
    log := Follow(log, OneBinding(Journaled(Verified), LIVE, WHOLE), Committing());
    ClosingPlays();
    log := Follow(log, OneBinding(PROMOTED, LIVE, WHOLE), Closing());
  }
}
