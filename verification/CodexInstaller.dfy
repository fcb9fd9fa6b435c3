/** Installing and upgrading the Codex integration (codex/installer.py): a journalled change to a few file-system
    slots that is restarted after a crash at any atomic write. */
module CodexInstaller {
  import opened Domain
  import opened CodexConfig

  /** A marketplace directory: absent, complete with known digests, or anything else. */
  datatype Tree = Absent | Whole(digests: string) | Partial

  datatype Strategy = InstallPlugin | RefreshPlugin | CompletePlugin

  datatype Progress = Progress(
    marketplaceAdd: bool, refreshRemove: bool, pluginAdd: bool, pluginRemove: bool, marketplaceRemove: bool)

  const NO_PROGRESS := Progress(false, false, false, false, false)

  datatype Phase = Prepared | Installed | UninstallCommands | UninstallConfig | UninstallTree | UninstallReceipt

  /** What the uninstall records about the configuration before it edits it. */
  datatype Undoing = Undoing(existed: bool, before: Document, after: Document)

  /** The journal. Configuration digests are ideal: a digest is the document it was taken of. */
  datatype Receipt = Receipt(
    phase: Phase, preview: Preview, existed: bool, before: Document, after: Document, changes: seq<Change>,
    staged: string, previous: Option<string>, runtime: string, strategy: Strategy, progress: Progress,
    undoing: Option<Undoing>)

  /** The digest an operator reviews, as the values it binds. */
  datatype Preview = Preview(
    config: Option<Document>, receipt: Option<Receipt>, changes: seq<Change>, strategy: Strategy, runtime: string, plan: string)

  datatype Command = MarketplaceAdd | PluginRefreshRemove | PluginAdd | PluginRemove | MarketplaceRemove

  datatype Outcome = Finished(issues: seq<string>) | Refused(error: string) | Crashed

  function DocumentOf(config: Option<Document>): Document {
    if config.Some? then config.value else map[]
  }

  /* ---------- Receipt rules (_read_receipt) ---------- */

  predicate ProgressAllowed(phase: Phase, p: Progress) {
    && (p.marketplaceRemove ==> p.pluginRemove)
    && (phase.Prepared? || phase.Installed? ==> !p.pluginRemove && !p.marketplaceRemove)
    && (phase.UninstallConfig? || phase.UninstallTree? || phase.UninstallReceipt? ==> p.pluginRemove && p.marketplaceRemove)
  }

  predicate Readable(r: Receipt) {
    && ChangesOk(r.changes)
    && (!r.phase.Prepared? ==> r.previous.None?)
    && ProgressAllowed(r.phase, r.progress)
    && (r.progress.pluginAdd ==> r.progress.marketplaceAdd)
    && (r.strategy.InstallPlugin? ==> !r.progress.refreshRemove)
    && (r.strategy.RefreshPlugin? && r.progress.pluginAdd ==> r.progress.refreshRemove)
    && (r.strategy.CompletePlugin? ==> r.progress.marketplaceAdd && r.progress.pluginAdd)
    && (r.undoing.None? <==> r.phase.Prepared? || r.phase.Installed? || r.phase.UninstallCommands?)
  }

  /* ---------- Planning ---------- */

  function PluginPresent(r: Receipt): bool {
    r.progress.pluginAdd || (r.strategy.RefreshPlugin? && !r.progress.refreshRemove)
  }

  function PlannedStrategy(receipt: Option<Receipt>, plan: string): Strategy {
    if receipt.None? then InstallPlugin
    else if receipt.value.phase.Prepared? || receipt.value.staged == plan then receipt.value.strategy
    else if PluginPresent(receipt.value) then RefreshPlugin else InstallPlugin
  }

  function PlannedChanges(config: Option<Document>, receipt: Option<Receipt>): seq<Change> {
    if receipt.Some? then receipt.value.changes else ChangesOf(DocumentOf(config))
  }

  function CurrentPreview(config: Option<Document>, receipt: Option<Receipt>, plan: string, runtime: string): Preview {
    if receipt.Some? && receipt.value.phase.Prepared? then receipt.value.preview
    else Preview(config, receipt, PlannedChanges(config, receipt), PlannedStrategy(receipt, plan), runtime, plan)
  }

  function Rendered(config: Option<Document>): Document {
    if RequiredMatches(DocumentOf(config)) then DocumentOf(config) else Applied(DocumentOf(config))
  }

  /** The journal entry written before anything is changed. */
  function PreparedReceipt(config: Option<Document>, receipt: Option<Receipt>, plan: string, runtime: string): Receipt {
    Receipt(
      Prepared, CurrentPreview(config, receipt, plan, runtime), config.Some?, DocumentOf(config), Rendered(config),
      PlannedChanges(config, receipt), plan, if receipt.Some? then Some(receipt.value.staged) else None, runtime,
      PlannedStrategy(receipt, plan),
      NO_PROGRESS.(marketplaceAdd := receipt.Some? && receipt.value.progress.marketplaceAdd), None)
  }

  function InstalledReceipt(r: Receipt): Receipt {
    r.(phase := Installed, previous := None)
  }

  /** The journal after the last command. */
  function FinalReceipt(prepared: Receipt): Receipt {
    InstalledReceipt(prepared).(
      strategy := CompletePlugin, progress := Progress(true, prepared.strategy.RefreshPlugin?, true, false, false))
  }

  /** The journal entry of an install can be read back exactly when it does not carry over a completed strategy:
      the case of a reinstall with unchanged digests that is not a mere resumption of commands. */
  lemma PreparedIsReadable(config: Option<Document>, receipt: Option<Receipt>, plan: string, runtime: string)
    requires receipt.Some? ==> Readable(receipt.value) && receipt.value.phase.Installed?
    ensures Readable(PreparedReceipt(config, receipt, plan, runtime)) <==>
            !(receipt.Some? && receipt.value.staged == plan && receipt.value.strategy.CompletePlugin?)
  {
  }

  /* ---------- The journey of one installation ---------- */

  /** Fixed when the installation starts; every restart works towards the same end. */
  datatype Job = Job(config: Option<Document>, prior: Option<Receipt>, plan: string, runtime: string)

  function JournalOf(j: Job): Receipt {
    PreparedReceipt(j.config, j.prior, j.plan, j.runtime)
  }

  lemma JournalFresh(j: Job)
    ensures var r := JournalOf(j);
            && r.staged == j.plan && r.phase.Prepared?
            && r.progress == NO_PROGRESS.(marketplaceAdd := r.progress.marketplaceAdd)
  {
  }

  lemma JobUpgrades(j: Job)
    requires JobOk(j)
    ensures j.prior.Some? ==> j.prior.value.staged != j.plan
  {
  }

  /** A first installation, or an upgrade of an installed receipt to different digests. */
  predicate JobOk(j: Job) {
    && Controllable(DocumentOf(j.config))
    && (j.prior.Some? ==>
          && Readable(j.prior.value) && j.prior.value.phase.Installed? && j.prior.value.staged != j.plan
          && (RequiredMatches(DocumentOf(j.config)) || OriginalMatches(DocumentOf(j.config), j.prior.value.changes)))
  }

  class Host {
    var config: Option<Document>
    var receipt: Option<Receipt>
    var active: Tree
    var staging: Tree
    var retired: Tree
    var removal: Tree
    /** What Codex itself has registered. */
    var marketplace: bool
    var plugin: Option<string>
    /** Atomic writes left before the next crash. */
    var budget: nat

    predicate TreesDone(target: string)
      reads this`active, this`staging, this`retired, this`removal
    {
      active == Whole(target) && staging == Absent && retired == Absent && removal == Absent
    }

    /** The positions of the four trees while one target replaces an optional previous one. */
    predicate Converging(previous: Option<string>, target: string)
      reads this`active, this`retired, this`removal
    {
      && removal == Absent
      && (retired == Absent || (previous.Some? && retired == Whole(previous.value)))
      && (|| (if previous.Some? then active == Whole(previous.value) else active == Absent)
          || active == Whole(target)
          || (previous.Some? && active == Absent && retired == Whole(previous.value)))
    }

    predicate Untouched(j: Job)
      reads this`config, this`receipt, this`active, this`staging, this`retired, this`removal, this`marketplace, this`plugin
    {
      && receipt == j.prior && config == j.config
      && (if j.prior.None? then active == Absent
          else active == Whole(j.prior.value.staged) && Converging(Some(j.prior.value.staged), j.plan))
      && (j.prior.Some? && j.prior.value.progress.marketplaceAdd ==> marketplace)
    }

    predicate Journalled(j: Job)
      reads this`config, this`receipt, this`active, this`staging, this`retired, this`removal, this`marketplace, this`plugin
    {
      && receipt == Some(JournalOf(j))
      && (config == j.config || config == Some(JournalOf(j).after))
      && Converging(JournalOf(j).previous, j.plan)
      && (JournalOf(j).progress.marketplaceAdd ==> marketplace)
    }

    predicate Registering(j: Job)
      reads this`config, this`receipt, this`active, this`staging, this`retired, this`removal, this`marketplace, this`plugin
    {
      && receipt.Some? && TreesDone(j.plan) && config == Some(JournalOf(j).after)
      && var p, strategy := receipt.value.progress, receipt.value.strategy;
         && receipt.value == InstalledReceipt(JournalOf(j)).(progress := p, strategy := strategy)
         && !p.pluginRemove && !p.marketplaceRemove
         && (JournalOf(j).progress.marketplaceAdd ==> p.marketplaceAdd)
         && (p.refreshRemove ==> JournalOf(j).strategy.RefreshPlugin? && p.marketplaceAdd)
         && (p.pluginAdd ==> p.marketplaceAdd && (JournalOf(j).strategy.RefreshPlugin? ==> p.refreshRemove))
         && (strategy == JournalOf(j).strategy || (strategy.CompletePlugin? && p.pluginAdd))
         && (p.marketplaceAdd ==> marketplace)
         && (p.pluginAdd ==> plugin == Some(j.plan))
    }

    /** Every state that the installation can be found in. */
    predicate Toward(j: Job)
      reads this`config, this`receipt, this`active, this`staging, this`retired, this`removal, this`marketplace, this`plugin
    {
      Untouched(j) || Journalled(j) || Registering(j)
    }

    predicate AtGoal(j: Job)
      reads this`config, this`receipt, this`active, this`staging, this`retired, this`removal, this`marketplace, this`plugin
    {
      && receipt == Some(FinalReceipt(JournalOf(j))) && config == Some(JournalOf(j).after) && TreesDone(j.plan)
      && marketplace && plugin == Some(j.plan)
    }

    /* ---------- Atomic writes ---------- */

    method WriteReceipt(r: Receipt) returns (done: bool)
      modifies this`receipt, this`budget
      ensures done <==> old(budget) > 0
      ensures done ==> receipt == Some(r) && budget == old(budget) - 1
      ensures !done ==> receipt == old(receipt) && budget == old(budget)
    {
      done := budget > 0;
      if done { receipt, budget := Some(r), budget - 1; }
    }

    method WriteConfig(d: Document) returns (done: bool)
      modifies this`config, this`budget
      ensures done <==> old(budget) > 0
      ensures done ==> config == Some(d) && budget == old(budget) - 1
      ensures !done ==> config == old(config) && budget == old(budget)
    {
      done := budget > 0;
      if done { config, budget := Some(d), budget - 1; }
    }

    method RemoveStaging() returns (done: bool)
      modifies this`staging, this`budget
      ensures budget + 1 >= old(budget) && (old(budget) > 0 ==> done)
      ensures staging == if done then Absent else old(staging)
    {
      done := staging == Absent || budget > 0;
      if staging != Absent && budget > 0 { staging, budget := Absent, budget - 1; }
    }

    method RemoveRetired() returns (done: bool)
      modifies this`retired, this`budget
      ensures budget + 1 >= old(budget) && (old(budget) > 0 ==> done)
      ensures retired == if done then Absent else old(retired)
    {
      done := retired == Absent || budget > 0;
      if retired != Absent && budget > 0 { retired, budget := Absent, budget - 1; }
    }

    method RemoveRemoval() returns (done: bool)
      modifies this`removal, this`budget
      ensures budget + 1 >= old(budget) && (old(budget) > 0 ==> done)
      ensures removal == if done then Absent else old(removal)
    {
      done := removal == Absent || budget > 0;
      if removal != Absent && budget > 0 { removal, budget := Absent, budget - 1; }
    }

    /** The staging directory is filled file by file; only the last write completes it. */
    method WriteStaging(target: string) returns (done: bool)
      modifies this`staging, this`budget
      ensures budget + 3 >= old(budget) && (old(budget) >= 3 ==> done)
      ensures done ==> staging == Whole(target)
    {
      if staging == Whole(target) {
        return true;
      }
      done := RemoveStaging();
      if !done || budget == 0 { return false; }
      staging, budget := Partial, budget - 1;
      if budget == 0 { return false; }
      staging, budget := Whole(target), budget - 1;
    }

    method Retire() returns (done: bool)
      requires retired == Absent
      modifies this`active, this`retired, this`budget
      ensures done <==> old(budget) > 0
      ensures done ==> retired == old(active) && active == Absent && budget == old(budget) - 1
      ensures !done ==> retired == old(retired) && active == old(active) && budget == old(budget)
    {
      done := budget > 0;
      if done { retired, active, budget := active, Absent, budget - 1; }
    }

    method Activate() returns (done: bool)
      requires active == Absent
      modifies this`active, this`staging, this`budget
      ensures done <==> old(budget) > 0
      ensures done ==> active == old(staging) && staging == Absent && budget == old(budget) - 1
      ensures !done ==> active == old(active) && staging == old(staging) && budget == old(budget)
    {
      done := budget > 0;
      if done { active, staging, budget := staging, Absent, budget - 1; }
    }

    /* ---------- Phases ---------- */

    /** Whatever position a crash left, the trees reach the target, and a whole previous or target tree is there throughout. */
    method Converge(previous: Option<string>, target: string) returns (o: Outcome)
      requires Converging(previous, target)
      modifies this`active, this`staging, this`retired, this`budget
      ensures Converging(previous, target)
      ensures previous.Some? ==> active.Whole? || retired.Whole?
      ensures o.Crashed? || (o.Finished? && TreesDone(target))
      ensures budget + 7 >= old(budget) && (old(budget) >= 7 ==> o.Finished?)
    {
      if removal != Absent {
        return Refused("marketplace_removal_recovery_required");
      }
      var activeTarget := active == Whole(target);
      var activePrevious := previous.Some? && active == Whole(previous.value);
      var retiredPrevious := previous.Some? && retired == Whole(previous.value);
      if retired != Absent && !retiredPrevious {
        return Refused("retired_marketplace_drift");
      }
      if active != Absent && !activeTarget && !activePrevious {
        return Refused("prepared_marketplace_drift");
      }
      var done;
      if activeTarget {
        done := RemoveStaging();
        if !done { return Crashed; }
        done := RemoveRetired();
        return if done then Finished([]) else Crashed;
      }
      done := WriteStaging(target);
      if !done { return Crashed; }
      if activePrevious {
        done := RemoveRetired();
        if !done { return Crashed; }
        done := Retire();
        if !done { return Crashed; }
      } else if previous.Some? && !retiredPrevious {
        return Refused("previous_marketplace_missing");
      }
      done := Activate();
      if !done { return Crashed; }
      done := RemoveRetired();
      o := if done then Finished([]) else Crashed;
    }

    /** A first installation clears what an earlier one may have left; an unexplained active tree is refused. */
    method SweepUnreceipted() returns (o: Outcome)
      modifies this`staging, this`retired, this`removal, this`budget
      ensures active != Absent ==> o.Refused?
      ensures active == Absent ==> !o.Refused? && (old(budget) >= 3 ==> o.Finished?) && budget + 3 >= old(budget)
      ensures o.Finished? ==> staging == Absent && retired == Absent && removal == Absent
    {
      if active != Absent {
        return Refused("unbound_existing_marketplace");
      }
      var done := RemoveStaging();
      if !done { return Crashed; }
      done := RemoveRetired();
      if !done { return Crashed; }
      done := RemoveRemoval();
      o := if done then Finished([]) else Crashed;
    }

    method RegisterMarketplace() returns (done: bool)
      modifies this`marketplace, this`budget
      ensures done <==> old(budget) > 0
      ensures marketplace == (old(marketplace) || done) && budget == old(budget) - if done then 1 else 0
    {
      done := budget > 0;
      if done { marketplace, budget := true, budget - 1; }
    }

    method UnregisterMarketplace() returns (done: bool)
      modifies this`marketplace, this`budget
      ensures done <==> old(budget) > 0
      ensures marketplace == (old(marketplace) && !done) && budget == old(budget) - if done then 1 else 0
    {
      done := budget > 0;
      if done { marketplace, budget := false, budget - 1; }
    }

    /** Codex installs the plugin from the registered active tree. */
    method RegisterPlugin() returns (done: bool)
      requires active.Whole?
      modifies this`plugin, this`budget
      ensures done <==> old(budget) > 0
      ensures plugin == (if done then Some(active.digests) else old(plugin)) && budget == old(budget) - if done then 1 else 0
    {
      done := budget > 0;
      if done { plugin, budget := Some(active.digests), budget - 1; }
    }

    method UnregisterPlugin() returns (done: bool)
      modifies this`plugin, this`budget
      ensures done <==> old(budget) > 0
      ensures plugin == (if done then None else old(plugin)) && budget == old(budget) - if done then 1 else 0
    {
      done := budget > 0;
      if done { plugin, budget := None, budget - 1; }
    }

    method AddMarketplace(ghost j: Job) returns (done: bool)
      requires Registering(j)
      modifies this`receipt, this`marketplace, this`budget
      ensures Registering(j) && receipt.value.strategy == old(receipt.value.strategy)
      ensures receipt.value.progress == if done then old(receipt.value.progress).(marketplaceAdd := true) else old(receipt.value.progress)
      ensures budget + 2 >= old(budget) && (old(budget) >= 2 ==> done)
    {
      hide JournalOf, InstalledReceipt;
      done := RegisterMarketplace();
      if !done { return; }
      done := WriteReceipt(receipt.value.(progress := receipt.value.progress.(marketplaceAdd := true)));
    }

    method RemoveOldPlugin(ghost j: Job) returns (done: bool)
      requires Registering(j) && receipt.value.progress.marketplaceAdd && !receipt.value.progress.pluginAdd
      requires JournalOf(j).strategy.RefreshPlugin?
      modifies this`receipt, this`plugin, this`budget
      ensures Registering(j) && receipt.value.strategy == old(receipt.value.strategy)
      ensures receipt.value.progress == if done then old(receipt.value.progress).(refreshRemove := true) else old(receipt.value.progress)
      ensures budget + 2 >= old(budget) && (old(budget) >= 2 ==> done)
    {
      hide JournalOf, InstalledReceipt;
      done := UnregisterPlugin();
      if !done { return; }
      done := WriteReceipt(receipt.value.(progress := receipt.value.progress.(refreshRemove := true)));
    }

    method AddPlugin(ghost j: Job) returns (done: bool)
      requires Registering(j) && receipt.value.progress.marketplaceAdd
      requires JournalOf(j).strategy.RefreshPlugin? ==> receipt.value.progress.refreshRemove
      modifies this`receipt, this`plugin, this`budget
      ensures Registering(j) && (done ==> receipt.value.progress.pluginAdd)
      ensures budget + 2 >= old(budget) && (old(budget) >= 2 ==> done)
    {
      hide JournalOf, InstalledReceipt;
      done := RegisterPlugin();
      if !done { return; }
      done := WriteReceipt(receipt.value.(progress := receipt.value.progress.(pluginAdd := true)));
    }

    /** Each command that succeeds is journalled before the next; one that was not journalled is run again. */
    method RunInstallCommands(run: bool, runner: Command -> bool, ghost j: Job) returns (o: Outcome)
      requires Registering(j)
      modifies this`receipt, this`marketplace, this`plugin, this`budget
      ensures Registering(j) && !o.Refused?
      ensures o.Finished? && run && (forall c :: runner(c)) ==> receipt.value.progress.pluginAdd
      ensures !run ==> o == Finished(["codex_commands_require_operator_execution"]) && unchanged(this)
      ensures run && !old(receipt.value.progress.marketplaceAdd) && !runner(MarketplaceAdd) ==>
                o == Finished(["marketplace_registration_failed"]) && unchanged(this)
      ensures budget + 6 >= old(budget) && (old(budget) >= 6 ==> o.Finished?)
    {
      hide JournalOf, InstalledReceipt;
      if !run {
        return Finished(["codex_commands_require_operator_execution"]);
      }
      var done;
      var refresh := receipt.value.strategy.RefreshPlugin?;
      if !receipt.value.progress.marketplaceAdd {
        if !runner(MarketplaceAdd) {
          return Finished(["marketplace_registration_failed"]);
        }
        done := AddMarketplace(j);
        if !done { return Crashed; }
      }
      if refresh && !receipt.value.progress.refreshRemove {
        if !runner(PluginRefreshRemove) {
          return Finished(["plugin_refresh_remove_failed"]);
        }
        done := RemoveOldPlugin(j);
        if !done { return Crashed; }
      }
      if !receipt.value.progress.pluginAdd {
        if !runner(PluginAdd) {
          return Finished(["plugin_install_failed"]);
        }
        done := AddPlugin(j);
        if !done { return Crashed; }
      }
      o := Finished([]);
    }

    /** The end of every installation: the commands, then the strategy that says they are complete. */
    method Register(run: bool, runner: Command -> bool, ghost j: Job) returns (o: Outcome)
      requires Registering(j)
      modifies this`receipt, this`marketplace, this`plugin, this`budget
      ensures Registering(j) && !o.Refused?
      ensures o.Finished? && run && (forall c :: runner(c)) ==> AtGoal(j)
      ensures old(budget) >= 7 ==> o.Finished?
    {
      o := RunInstallCommands(run, runner, j);
      if o.Finished? && receipt.value.progress.marketplaceAdd && receipt.value.progress.pluginAdd && !receipt.value.strategy.CompletePlugin? {
        var done := WriteReceipt(receipt.value.(strategy := CompletePlugin));
        if !done { return Crashed; }
      }
    }

    /** The installed receipt, once the trees and the configuration stand. */
    method Seal(prepared: Receipt, ghost j: Job) returns (o: Outcome)
      requires Journalled(j) && prepared == JournalOf(j)
      requires TreesDone(j.plan) && config == Some(prepared.after)
      modifies this`receipt, this`budget
      ensures Journalled(j) || Registering(j)
      ensures !o.Refused? && (o.Finished? ==> Registering(j))
      ensures budget + 1 >= old(budget) && (old(budget) >= 1 ==> o.Finished?)
    {
      hide JournalOf;
      JournalFresh(j);
      if active != Whole(prepared.staged) || config.None? || config.value != prepared.after {
        return Refused("install_verification_failed");
      }
      var done := WriteReceipt(InstalledReceipt(prepared));
      o := if done then Finished([]) else Crashed;
    }

    /** The configuration edit of a recovery, from whichever side of it the crash left the file. */
    method RecoverConfig(prepared: Receipt, ghost j: Job) returns (o: Outcome)
      requires JobOk(j) && Journalled(j) && prepared == JournalOf(j)
      modifies this`config, this`budget
      ensures Journalled(j) && !o.Refused? && (o.Finished? ==> config == Some(prepared.after))
      ensures budget + 1 >= old(budget) && (old(budget) >= 1 ==> o.Finished?)
    {
      hide JournalOf, JobOk, Applied, RequiredMatches, OriginalMatches, Converging;
      var document := DocumentOf(config);
      var beforeMatches := document == prepared.before && config.Some? == prepared.existed && OriginalMatches(document, prepared.changes);
      var afterMatches := document == prepared.after && RequiredMatches(document);
      PositionKnown(j, config);
      if beforeMatches {
        if Applied(document) != prepared.after {
          return Refused("prepared_install_inputs_drift");
        }
        var done := WriteConfig(Applied(document));
        return if done then Finished([]) else Crashed;
      } else if !afterMatches {
        return Refused("codex_config_drift_requires_review");
      }
      o := Finished([]);
    }

    /** From the journal entry to the installed receipt: trees, configuration, receipt. */
    method Recover(ghost j: Job) returns (o: Outcome)
      requires JobOk(j) && Journalled(j)
      modifies this`config, this`receipt, this`active, this`staging, this`retired, this`budget
      ensures Journalled(j) || Registering(j)
      ensures !o.Refused? && (o.Finished? ==> Registering(j))
      ensures budget + 9 >= old(budget) && (old(budget) >= 9 ==> o.Finished?)
    {
      assert receipt.value.staged == j.plan;
      hide JournalOf, JobOk, Registering;
      var prepared := receipt.value;
      o := Converge(prepared.previous, prepared.staged);
      if !o.Finished? { return; }
      o := RecoverConfig(prepared, j);
      if !o.Finished? { return; }
      o := Seal(prepared, j);
    }

    /** The first run of a job: sweep or keep, journal, then the same work as a recovery. */
    method Begin(plan: string, runtime: string, ghost j: Job) returns (o: Outcome)
      requires JobOk(j) && Untouched(j) && plan == j.plan && runtime == j.runtime
      modifies this`config, this`receipt, this`active, this`staging, this`retired, this`removal, this`budget
      ensures Toward(j)
      ensures !o.Refused? && (o.Finished? ==> Registering(j))
      ensures budget + 13 >= old(budget) && (old(budget) >= 13 ==> o.Finished?)
    {
      hide Registering, Applied, RequiredMatches, CurrentPreview, PlannedChanges, PlannedStrategy, JobOk;
      JobUpgrades(j);
      var document := DocumentOf(config);
      var rendered := if RequiredMatches(document) then document else Applied(document);
      if receipt.None? {
        o := SweepUnreceipted();
        if !o.Finished? { return; }
      }
      var prepared := PreparedReceipt(config, receipt, plan, runtime);
      var done := WriteReceipt(prepared);
      if !done { return Crashed; }
      o := EditFromJournal(document, rendered, prepared, j);
    }

    method EditFromJournal(document: Document, rendered: Document, prepared: Receipt, ghost j: Job) returns (o: Outcome)
      requires Journalled(j) && prepared == JournalOf(j) && config == j.config
      requires document == DocumentOf(config) && rendered == prepared.after
      modifies this`config, this`receipt, this`active, this`staging, this`retired, this`budget
      ensures Journalled(j) || Registering(j)
      ensures !o.Refused? && (o.Finished? ==> Registering(j))
      ensures budget + 9 >= old(budget) && (old(budget) >= 9 ==> o.Finished?)
    {
      assert prepared.staged == j.plan && (rendered == document ==> config.Some?) by {
        RenderedMatches(j);
        NothingMatchesNothing();
      }
      hide JournalOf, Registering;
      o := Converge(prepared.previous, prepared.staged);
      if !o.Finished? { return; }
      if rendered != document {
        var done := WriteConfig(rendered);
        if !done { return Crashed; }
      }
      o := Seal(prepared, j);
    }

    /** The confirmed command, run from whatever a crash left. */
    method Install(plan: string, runtime: string, confirm: Preview, run: bool, runner: Command -> bool, ghost j: Job) returns (o: Outcome)
      requires JobOk(j) && Toward(j) && plan == j.plan && runtime == j.runtime
      modifies this
      ensures Toward(j)
      ensures confirm != old(CurrentPreview(config, receipt, plan, runtime)) ==>
                && o == Refused("install_preview_digest_mismatch")
                && unchanged(this)
      ensures confirm == old(CurrentPreview(config, receipt, plan, runtime)) ==>
                && !o.Refused?
                && (o.Finished? && run && (forall c :: runner(c)) ==> AtGoal(j))
                && (old(budget) >= 20 ==> o.Finished?)
    {
      if receipt.Some? {
        JournalReadable(this, j);
        if !Readable(receipt.value) {
          return Refused("integration_receipt_invalid");
        }
        if receipt.value.phase.Installed? {
          if !RequiredMatches(DocumentOf(config)) && !OriginalMatches(DocumentOf(config), receipt.value.changes) {
            return Refused("codex_config_drift_requires_review");
          }
          if active != Whole(receipt.value.staged) {
            return Refused("staged_plugin_drift");
          }
        } else if !receipt.value.phase.Prepared? {
          return Refused("integration_uninstall_recovery_required");
        } else if receipt.value.staged != plan || receipt.value.runtime != runtime {
          return Refused("prepared_install_inputs_drift");
        }
      }
      if confirm != CurrentPreview(config, receipt, plan, runtime) {
        return Refused("install_preview_digest_mismatch");
      }
      var commandsOnly :=
        && receipt.Some? && receipt.value.phase.Installed? && receipt.value.staged == plan && receipt.value.runtime == runtime
        && RequiredMatches(DocumentOf(config)) && active == Whole(plan)
        && staging == Absent && retired == Absent && removal == Absent;
      if commandsOnly {
        o := Finished([]);
      } else if receipt.Some? && receipt.value.phase.Prepared? {
        o := Recover(j);
      } else {
        o := Begin(plan, runtime, j);
      }
      if o.Finished? {
        o := Register(run, runner, j);
      }
    }

    /** Any number of crashes, each at any atomic write, then one undisturbed run: the end is the job's goal. */
    method InstallAfterCrashes(plan: string, runtime: string, crashes: seq<nat>, runner: Command -> bool, ghost j: Job)
      requires JobOk(j) && Untouched(j) && plan == j.plan && runtime == j.runtime && forall c :: runner(c)
      modifies this
      ensures AtGoal(j)
    {
      hide Untouched, Journalled, Registering, JobOk;
      var o;
      for i := 0 to |crashes|
        invariant Toward(j)
      {
        budget := crashes[i];
        o := Install(plan, runtime, CurrentPreview(config, receipt, plan, runtime), true, runner, j);
      }
      budget := 20;
      o := Install(plan, runtime, CurrentPreview(config, receipt, plan, runtime), true, runner, j);
    }

    /* ---------- Uninstalling ---------- */

    predicate CommandsPending(u: Undo)
      reads this`config, this`receipt, this`active, this`staging, this`retired, this`removal, this`marketplace, this`plugin
    {
      && receipt.Some? && config == Some(u.document) && active == Whole(u.receipt.staged) && removal == Absent
      && var p := receipt.value.progress;
         && receipt.value == u.receipt.(phase := UninstallCommands, progress := p)
         && p.(pluginRemove := false, marketplaceRemove := false) == u.receipt.progress
         && (p.marketplaceRemove ==> p.pluginRemove)
         && (p.pluginRemove && PluginPresent(u.receipt) ==> plugin == None)
         && (p.marketplaceRemove && u.receipt.progress.marketplaceAdd ==> !marketplace)
    }

    /** Commands are done; the journal holds the configuration before and after the restoration. */
    predicate Undone(u: Undo, phase: Phase)
      reads this`config, this`receipt, this`active, this`staging, this`retired, this`removal, this`marketplace, this`plugin
    {
      && receipt == Some(UndoReceipt(u, phase))
      && (PluginPresent(u.receipt) ==> plugin == None) && (u.receipt.progress.marketplaceAdd ==> !marketplace)
    }

    predicate Leaving(u: Undo)
      reads this`config, this`receipt, this`active, this`staging, this`retired, this`removal, this`marketplace, this`plugin
    {
      || (receipt == Some(u.receipt) && config == Some(u.document) && active == Whole(u.receipt.staged) && removal == Absent)
      || CommandsPending(u)
      || (Undone(u, UninstallConfig) && active == Whole(u.receipt.staged) && removal == Absent
          && (config == Some(u.document) || config == Some(RestoredBy(u))))
      || (Undone(u, UninstallTree) && config == Some(RestoredBy(u))
          && ((active == Whole(u.receipt.staged) && removal == Absent)
              || (active == Absent && (removal == Absent || removal == Whole(u.receipt.staged)))))
      || (Undone(u, UninstallReceipt) && config == Some(RestoredBy(u)) && NoTrees())
    }

    predicate NoTrees()
      reads this`active, this`staging, this`retired, this`removal
    {
      active == Absent && staging == Absent && retired == Absent && removal == Absent
    }

    predicate Gone(u: Undo)
      reads this`config, this`receipt, this`active, this`staging, this`retired, this`removal, this`marketplace, this`plugin
    {
      && receipt == None && config == Some(RestoredBy(u)) && NoTrees()
      && (PluginPresent(u.receipt) ==> plugin == None) && (u.receipt.progress.marketplaceAdd ==> !marketplace)
    }

    method UnlinkReceipt() returns (done: bool)
      modifies this`receipt, this`budget
      ensures done <==> old(budget) > 0
      ensures receipt == (if done then None else old(receipt)) && budget == old(budget) - if done then 1 else 0
    {
      done := budget > 0;
      if done { receipt, budget := None, budget - 1; }
    }

    method RenameForRemoval() returns (done: bool)
      requires removal == Absent
      modifies this`active, this`removal, this`budget
      ensures done <==> old(budget) > 0
      ensures done ==> removal == old(active) && active == Absent && budget == old(budget) - 1
      ensures !done ==> removal == old(removal) && active == old(active) && budget == old(budget)
    {
      done := budget > 0;
      if done { removal, active, budget := active, Absent, budget - 1; }
    }

    method MarkPluginRemoved(ghost u: Undo) returns (done: bool)
      requires CommandsPending(u) && (PluginPresent(u.receipt) ==> plugin == None)
      modifies this`receipt, this`budget
      ensures CommandsPending(u) && budget + 1 >= old(budget) && (old(budget) >= 1 ==> done)
      ensures receipt.value.progress.pluginRemove == (done || old(receipt.value.progress.pluginRemove))
      ensures receipt.value.progress.marketplaceRemove == old(receipt.value.progress.marketplaceRemove)
    {
      done := WriteReceipt(receipt.value.(progress := receipt.value.progress.(pluginRemove := true)));
    }

    method MarkMarketplaceRemoved(ghost u: Undo) returns (done: bool)
      requires CommandsPending(u) && receipt.value.progress.pluginRemove && (u.receipt.progress.marketplaceAdd ==> !marketplace)
      modifies this`receipt, this`budget
      ensures CommandsPending(u) && budget + 1 >= old(budget) && (old(budget) >= 1 ==> done)
      ensures receipt.value.progress.pluginRemove
      ensures receipt.value.progress.marketplaceRemove == (done || old(receipt.value.progress.marketplaceRemove))
    {
      done := WriteReceipt(receipt.value.(progress := receipt.value.progress.(marketplaceRemove := true)));
    }

    method RunUninstallCommands(run: bool, runner: Command -> bool, ghost u: Undo) returns (o: Outcome)
      requires CommandsPending(u)
      modifies this`receipt, this`plugin, this`marketplace, this`budget
      ensures CommandsPending(u) && !o.Refused? && budget + 4 >= old(budget)
      ensures o == Finished([]) ==> receipt.value.progress.pluginRemove && receipt.value.progress.marketplaceRemove
      ensures run && (forall c :: runner(c)) && old(budget) >= 4 ==> o == Finished([])
    {
      var done;
      var present := PluginPresent(receipt.value);
      if !receipt.value.progress.pluginRemove {
        if present {
          if !run { return Finished(["remove_plugin_before_restoring_config"]); }
          if !runner(PluginRemove) { return Finished(["plugin_remove_failed"]); }
          done := UnregisterPlugin();
          if !done { return Crashed; }
        }
        done := MarkPluginRemoved(u);
        if !done { return Crashed; }
      }
      if !receipt.value.progress.marketplaceRemove {
        if receipt.value.progress.marketplaceAdd {
          if !run { return Finished(["remove_marketplace_before_restoring_config"]); }
          if !runner(MarketplaceRemove) { return Finished(["marketplace_remove_failed"]); }
          done := UnregisterMarketplace();
          if !done { return Crashed; }
        }
        done := MarkMarketplaceRemoved(u);
        if !done { return Crashed; }
      }
      o := Finished([]);
    }

    /** The journal takes the configuration before and after, once both commands are recorded. */
    method RecordRestoration(ghost u: Undo) returns (done: bool)
      requires CommandsPending(u) && receipt.value.progress.pluginRemove && receipt.value.progress.marketplaceRemove
      modifies this`receipt, this`budget
      ensures if done then Undone(u, UninstallConfig) else CommandsPending(u)
      ensures budget + 1 >= old(budget) && (old(budget) >= 1 ==> done)
    {
      var d := DocumentOf(config);
      done := WriteReceipt(receipt.value.(
        phase := UninstallConfig, undoing := Some(Undoing(config.Some?, d, Restored(d, receipt.value.changes)))));
    }

    /** The configuration edit, from whichever side of it the file is found on. */
    method RestoreConfig(ghost u: Undo) returns (o: Outcome)
      requires UndoOk(u) && Undone(u, UninstallConfig) && active == Whole(u.receipt.staged) && removal == Absent
      requires config == Some(u.document) || config == Some(RestoredBy(u))
      modifies this`config, this`receipt, this`budget
      ensures Leaving(u) && !o.Refused? && budget + 2 >= old(budget)
      ensures o.Finished? ==> o.issues == [] && Undone(u, UninstallTree) && config == Some(RestoredBy(u))
      ensures old(budget) >= 2 ==> o.Finished?
    {
      hide RestoredBy, UndoOk, Position, PluginPresent, Restored;
      Positions(u, config);
      assert RestoredBy(u) == Restored(u.document, u.receipt.changes) by { RestoredByMeans(u); }
      var done;
      var position := Position(receipt.value, config);
      if position.Some? && position.value.FoundBefore? {
        if Restored(DocumentOf(config), receipt.value.changes) != receipt.value.undoing.value.after {
          return Refused("uninstall_config_render_drift");
        }
        done := WriteConfig(Restored(DocumentOf(config), receipt.value.changes));
        if !done { return Crashed; }
      } else if position.None? {
        return Finished(["codex_config_drift_requires_review"]);
      }
      done := WriteReceipt(receipt.value.(phase := UninstallTree));
      o := if done then Finished([]) else Crashed;
    }

    /** The tree phase of an uninstall, between its two journal entries. */
    predicate TreePhase(u: Undo)
      reads this`config, this`receipt, this`active, this`staging, this`retired, this`removal, this`marketplace, this`plugin
    {
      && Undone(u, UninstallTree) && config == Some(RestoredBy(u))
      && ((active == Whole(u.receipt.staged) && removal == Absent)
          || (active == Absent && (removal == Absent || removal == Whole(u.receipt.staged))))
    }

    method RemoveTrees(ghost u: Undo) returns (o: Outcome)
      requires UndoOk(u) && TreePhase(u)
      modifies this`receipt, this`active, this`staging, this`retired, this`removal, this`budget
      ensures TreePhase(u) || (Undone(u, UninstallReceipt) && config == Some(RestoredBy(u)) && NoTrees())
      ensures NothingToUndo(u.receipt.changes) ==> o == Refused("uninstall_config_recovery_drift") && TreePhase(u)
      ensures !NothingToUndo(u.receipt.changes) ==> !o.Refused? && (old(budget) >= 5 ==> o.Finished?)
      ensures o.Finished? ==> o.issues == [] && Undone(u, UninstallReceipt) && NoTrees()
      ensures budget + 5 >= old(budget)
    {
      hide RestoredBy, UndoOk, Position, PluginPresent, NothingToUndo;
      Positions(u, config);
      if Position(receipt.value, config) != Some(FoundAfter) {
        return Refused("uninstall_config_recovery_drift");
      }
      var done := RemoveStaging();
      if !done { return Crashed; }
      done := RemoveRetired();
      if !done { return Crashed; }
      if active != Absent && removal != Absent {
        return Refused("marketplace_recovery_collision");
      }
      if active != Absent {
        if active != Whole(receipt.value.staged) { return Refused("staged_plugin_drift"); }
        done := RenameForRemoval();
        if !done { return Crashed; }
      }
      if removal != Absent && removal != Whole(receipt.value.staged) {
        return Refused("removal_marketplace_drift");
      }
      done := RemoveRemoval();
      if !done { return Crashed; }
      done := WriteReceipt(receipt.value.(phase := UninstallReceipt));
      o := if done then Finished([]) else Crashed;
    }

    method RemoveReceipt(ghost u: Undo) returns (o: Outcome)
      requires UndoOk(u) && Undone(u, UninstallReceipt) && config == Some(RestoredBy(u)) && NoTrees()
      modifies this`receipt, this`budget
      ensures NothingToUndo(u.receipt.changes) ==> o == Refused("uninstall_config_recovery_drift") && receipt == old(receipt)
      ensures !NothingToUndo(u.receipt.changes) ==> !o.Refused? && (old(budget) >= 1 ==> o.Finished?)
      ensures if o.Finished? then o.issues == [] && Gone(u) else receipt == old(receipt)
    {
      hide RestoredBy, UndoOk, Position, PluginPresent, NothingToUndo;
      Positions(u, config);
      if Position(receipt.value, config) != Some(FoundAfter) {
        return Refused("uninstall_config_recovery_drift");
      }
      var done := UnlinkReceipt();
      o := if done then Finished([]) else Crashed;
    }

    /** The command phase: removing the registrations, then recording what the configuration will be restored to. */
    method RemoveRegistrations(run: bool, runner: Command -> bool, ghost u: Undo) returns (o: Outcome)
      requires UndoOk(u) && CommandsPending(u)
      modifies this`receipt, this`plugin, this`marketplace, this`budget
      ensures CommandsPending(u) || (o == Finished([]) && Undone(u, UninstallConfig))
      ensures !o.Refused? && budget + 5 >= old(budget) && (o == Finished([]) ==> Undone(u, UninstallConfig))
      ensures run && (forall c :: runner(c)) && old(budget) >= 5 ==> o == Finished([])
    {
      o := RunUninstallCommands(run, runner, u);
      if o != Finished([]) { return; }
      if !RequiredMatches(DocumentOf(config)) {
        return Finished(["codex_config_drift_requires_review"]);
      }
      var done := RecordRestoration(u);
      if !done { return Crashed; }
    }

    /** The confirmed removal, resumed from whatever phase the journal names. */
    method Uninstall(run: bool, runner: Command -> bool, ghost u: Undo) returns (o: Outcome)
      requires UndoOk(u) && Leaving(u)
      modifies this
      ensures if o == Finished([]) then Gone(u) else Leaving(u)
      ensures !NothingToUndo(u.receipt.changes) ==>
                !o.Refused? && (run && (forall c :: runner(c)) && old(budget) >= 14 ==> o == Finished([]))
      ensures NothingToUndo(u.receipt.changes) ==>
                Leaving(u) && (run && (forall c :: runner(c)) && old(budget) >= 14 ==> o == Refused("uninstall_config_recovery_drift"))
    {
      hide NothingToUndo, RestoredBy, PluginPresent, UndoOk, RequiredMatches;
      assert RequiredMatches(u.document) by { UndoRequired(u); }
      InstalledProgress(u);
      if receipt.value.phase.Installed? || receipt.value.phase.UninstallCommands? || receipt.value.phase.UninstallConfig? {
        if active != Whole(receipt.value.staged) { return Refused("staged_plugin_drift"); }
        if removal != Absent { return Refused("marketplace_recovery_collision"); }
      }
      if (receipt.value.phase.Installed? || receipt.value.phase.UninstallCommands?) && !RequiredMatches(DocumentOf(config)) {
        return Finished(["codex_config_drift_requires_review"]);
      }
      if receipt.value.phase.Installed? {
        var done := WriteReceipt(receipt.value.(phase := UninstallCommands));
        if !done { return Crashed; }
      }
      if receipt.value.phase.UninstallCommands? {
        o := RemoveRegistrations(run, runner, u);
        if o != Finished([]) { return; }
      }
      o := FinishUninstall(u);
    }

    /** The phases that need no command. */
    method FinishUninstall(ghost u: Undo) returns (o: Outcome)
      requires UndoOk(u) && Leaving(u) && !receipt.value.phase.Installed? && !receipt.value.phase.UninstallCommands?
      modifies this`config, this`receipt, this`active, this`staging, this`retired, this`removal, this`budget
      ensures if o == Finished([]) then Gone(u) else Leaving(u)
      ensures !NothingToUndo(u.receipt.changes) ==> !o.Refused? && (old(budget) >= 8 ==> o == Finished([]))
      ensures NothingToUndo(u.receipt.changes) ==>
                Leaving(u) && (old(budget) >= 8 ==> o == Refused("uninstall_config_recovery_drift"))
    {
      hide NothingToUndo, RestoredBy, PluginPresent, UndoOk;
      InstalledProgress(u);
      if receipt.value.phase.UninstallConfig? {
        o := RestoreConfig(u);
        if !o.Finished? { return; }
      }
      if receipt.value.phase.UninstallTree? {
        o := RemoveTrees(u);
        if !o.Finished? { return; }
      }
      o := RemoveReceipt(u);
    }

    /** Any number of crashes, then one undisturbed run: everything is gone and the configuration restored. */
    method UninstallAfterCrashes(crashes: seq<nat>, runner: Command -> bool, ghost u: Undo)
      requires UndoOk(u) && Leaving(u) && forall c :: runner(c)
      requires !NothingToUndo(u.receipt.changes)
      modifies this
      ensures Gone(u)
    {
      hide UndoOk, Leaving, Gone, NothingToUndo;
      var o;
      for i := 0 to |crashes|
        invariant Leaving(u)
      {
        budget := crashes[i];
        o := Uninstall(true, runner, u);
        if o == Finished([]) { return; }
      }
      budget := 14;
      o := Uninstall(true, runner, u);
    }
  }

  /** Fixed when the uninstall starts: the installed receipt and the configuration found. */
  datatype Undo = Undo(receipt: Receipt, document: Document)

  lemma UndoRequired(u: Undo)
    requires UndoOk(u)
    ensures RequiredMatches(u.document)
  {
  }

  lemma InstalledProgress(u: Undo)
    requires UndoOk(u)
    ensures u.receipt.phase.Installed? && !u.receipt.progress.pluginRemove && !u.receipt.progress.marketplaceRemove
    ensures u.receipt.progress.(pluginRemove := false, marketplaceRemove := false) == u.receipt.progress
  {
  }

  lemma RestoredByMeans(u: Undo)
    ensures RestoredBy(u) == Restored(u.document, u.receipt.changes)
  {
  }

  predicate UndoOk(u: Undo) {
    Readable(u.receipt) && u.receipt.phase.Installed? && RequiredMatches(u.document)
  }

  function RestoredBy(u: Undo): Document {
    Restored(u.document, u.receipt.changes)
  }

  function UndoReceipt(u: Undo, phase: Phase): Receipt {
    u.receipt.(
      phase := phase, progress := u.receipt.progress.(pluginRemove := true, marketplaceRemove := true),
      undoing := Some(Undoing(true, u.document, RestoredBy(u))))
  }

  datatype Found = FoundBefore | FoundAfter

  /** On which side of its edit the configuration file is; the side before is tried first. */
  function Position(r: Receipt, config: Option<Document>): Option<Found>
    requires r.undoing.Some?
  {
    var d := DocumentOf(config);
    if d == r.undoing.value.before && config.Some? == r.undoing.value.existed && RequiredMatches(d) then Some(FoundBefore)
    else if d == r.undoing.value.after && OriginalMatches(d, r.changes) then Some(FoundAfter)
    else None
  }

  /** Every control had its required value before the first installation. */
  predicate NothingToUndo(changes: seq<Change>) {
    forall c <- changes :: c.previous == Some(c.control.required)
  }

  /** Restoring a configuration with the required values changes it exactly when there is something to undo. */
  lemma RestorationChanges(d: Document, changes: seq<Change>)
    requires ChangesOk(changes) && RequiredMatches(d)
    ensures Restored(d, changes) == d <==> NothingToUndo(changes)
  {
    RestoredMatches(d, changes);
    if NothingToUndo(changes) {
      NothingRestored(d, changes, |changes|);
      NoNewSections(changes);
    } else {
      var c :| c in changes && c.previous != Some(c.control.required);
      var i :| 0 <= i < |changes| && changes[i] == c;
      assert REQUIRED[i] in REQUIRED;
      hide Restored;
    }
  }

  lemma {:induction false} NothingRestored(d: Document, changes: seq<Change>, n: nat)
    requires ChangesOk(changes) && RequiredMatches(d) && NothingToUndo(changes) && n <= |changes|
    ensures RestoredUpTo(d, changes, n) == d
  {
    if n > 0 {
      NothingRestored(d, changes, n - 1);
      var c := changes[n - 1].control;
      assert changes[n - 1] in changes && c == REQUIRED[n - 1] && c in REQUIRED;
      hide Lookup, SetKey;
      SetSame(d, c.section, c.key, Bool(c.required));
    }
  }

  lemma SetSame(d: Document, section: string, key: string, value: Value)
    requires Lookup(d, section, key) == Some(value)
    ensures SetKey(d, section, key, value) == d
  {
    assert EntriesOf(d, section)[key := value] == EntriesOf(d, section);
  }

  lemma NoNewSections(changes: seq<Change>)
    requires ChangesOk(changes) && NothingToUndo(changes)
    ensures NewSections(changes) == {}
  {
    forall c | c in REQUIRED
      ensures c.section in (set x | x in changes && x.previous.Some? :: x.control.section)
    {
      var i :| 0 <= i < |REQUIRED| && REQUIRED[i] == c;
      assert changes[i] in changes;
    }
  }

  /** The file is found on a known side, and on the side after exactly when there was something to undo. */
  lemma Positions(u: Undo, config: Option<Document>)
    requires UndoOk(u) && (config == Some(u.document) || config == Some(RestoredBy(u)))
    ensures forall phase :: Position(UndoReceipt(u, phase), config).Some?
    ensures NothingToUndo(u.receipt.changes) ==> RestoredBy(u) == u.document
    ensures config == Some(u.document) ==> forall phase :: Position(UndoReceipt(u, phase), config) == Some(FoundBefore)
    ensures config == Some(RestoredBy(u)) ==> forall phase ::
              Position(UndoReceipt(u, phase), config) == Some(if NothingToUndo(u.receipt.changes) then FoundBefore else FoundAfter)
  {
    hide Restored, NothingToUndo, RequiredMatches, OriginalMatches;
    RestorationChanges(u.document, u.receipt.changes);
    RestoredMatches(u.document, u.receipt.changes);
  }

  /** The configuration found during a recovery is the one before the edit or the one after it. */
  lemma PositionKnown(j: Job, config: Option<Document>)
    requires JobOk(j) && (config == j.config || config == Some(JournalOf(j).after))
    ensures var p, d := JournalOf(j), DocumentOf(config);
            && (|| (d == p.before && config.Some? == p.existed && OriginalMatches(d, p.changes))
                || (d == p.after && RequiredMatches(d)))
            && (d == p.before && config.Some? == p.existed && OriginalMatches(d, p.changes) ==> Applied(d) == p.after)
            && (config.Some? || !(d == p.after && RequiredMatches(d)))
  {
    hide AppliedUpTo, Applied;
    var d := DocumentOf(j.config);
    RenderedMatches(j);
    if RequiredMatches(d) {
      AlreadyApplied(d);
    }
    if j.prior.None? {
      OwnChanges(d);
    }
    NothingMatchesNothing();
  }

  lemma NothingMatchesNothing()
    ensures !RequiredMatches(map[])
  {
    assert REQUIRED[0] in REQUIRED;
  }

  lemma AlreadyApplied(d: Document)
    requires RequiredMatches(d)
    ensures Applied(d) == d
  {
    AlreadyRequired(d, |REQUIRED|);
  }

  lemma OwnChanges(d: Document)
    requires Controllable(d)
    ensures OriginalMatches(d, ChangesOf(d))
  {
  }

  lemma RenderedMatches(j: Job)
    ensures RequiredMatches(JournalOf(j).after) && JournalOf(j).after == Rendered(j.config)
  {
    hide AppliedUpTo;
    AppliedMatches(DocumentOf(j.config));
  }

  /** Every receipt met on the way can be read. */
  lemma JournalReadable(h: Host, j: Job)
    requires JobOk(j) && h.Toward(j) && h.receipt.Some?
    ensures Readable(h.receipt.value)
    ensures h.Untouched(j) || h.Registering(j) ==> h.receipt.value.phase.Installed?
    ensures h.Registering(j) ==> RequiredMatches(DocumentOf(h.config)) && h.receipt.value.staged == j.plan && h.receipt.value.runtime == j.runtime
  {
    hide AppliedUpTo, Rendered, CurrentPreview, PlannedChanges, RequiredMatches, OriginalMatches;
    RenderedMatches(j);
    PreparedIsReadable(j.config, j.prior, j.plan, j.runtime);
  }

  /* ---------- A whole life: first installation, upgrades, removal ---------- */

  /** An installed receipt of the job, whatever commands are still to run. */
  predicate InstalledBy(r: Receipt, j: Job) {
    r == InstalledReceipt(JournalOf(j)).(progress := r.progress, strategy := r.strategy)
  }

  /** Each upgrade starts from an installed receipt of the one before it. */
  ghost predicate Succession(jobs: seq<Job>) {
    && jobs != [] && jobs[0].prior.None?
    && forall i :: 0 < i < |jobs| ==> jobs[i].prior.Some? && InstalledBy(jobs[i].prior.value, jobs[i - 1])
  }

  lemma {:induction false} FirstChangesKept(jobs: seq<Job>, i: nat)
    requires Succession(jobs) && i < |jobs|
    ensures JournalOf(jobs[i]).changes == ChangesOf(DocumentOf(jobs[0].config))
  {
    hide Rendered, ChangesOf;
    if i > 0 {
      FirstChangesKept(jobs, i - 1);
    }
  }

  /** After any number of upgrades, finished or not, and whatever else was edited, removal puts each control back to its value
      before the first installation and leaves every other key as it found it. */
  lemma RemovalRestoresControls(jobs: seq<Job>, u: Undo, s: string, k: string)
    requires Succession(jobs) && Controllable(DocumentOf(jobs[0].config))
    requires InstalledBy(u.receipt, jobs[|jobs| - 1])
    ensures Lookup(RestoredBy(u), s, k) ==
            if IsControl(s, k) then Lookup(DocumentOf(jobs[0].config), s, k) else Lookup(u.document, s, k)
  {
    FirstChangesKept(jobs, |jobs| - 1);
    hide Restored, ChangesOf, JournalOf;
    ControlsRestored(DocumentOf(jobs[0].config), u.document, s, k);
  }

  /** With no other edit in between, the whole document comes back exactly when no controlled section was there but empty. */
  lemma RemovalRestoresDocument(j: Job, u: Undo)
    requires JobOk(j) && j.prior.None?
    requires u.receipt == FinalReceipt(JournalOf(j)) && u.document == JournalOf(j).after
    ensures RestoredBy(u) == DocumentOf(j.config) <==> !EmptySection(DocumentOf(j.config))
  {
    hide Restored, Applied, EmptySection;
    var d := DocumentOf(j.config);
    if RequiredMatches(d) {
      AlreadyApplied(d);
    }
    WholeDocumentRestored(d);
  }

  /** The receipt records nothing to undo exactly when every required value was there already. */
  lemma UndoMeans(d: Document)
    ensures NothingToUndo(ChangesOf(d)) <==> RequiredMatches(d)
  {
    hide Lookup;
    var changes := ChangesOf(d);
    forall i | 0 <= i < |REQUIRED|
      ensures changes[i] in changes && REQUIRED[i] in REQUIRED
      ensures changes[i].previous == Some(REQUIRED[i].required) <==>
              Lookup(d, REQUIRED[i].section, REQUIRED[i].key) == Some(Bool(REQUIRED[i].required))
    {
      FlagMeans(d, REQUIRED[i]);
    }
  }

  lemma FlagMeans(d: Document, c: Control)
    ensures Flag(d, c) == Some(c.required) <==> Lookup(d, c.section, c.key) == Some(Bool(c.required))
  {
  }

  /** An installation's own receipt can be uninstalled to the end unless the configuration already had all required
      values before the first installation. */
  lemma FirstInstallRemovable(j: Job)
    requires JobOk(j) && j.prior.None?
    ensures UndoOk(Undo(FinalReceipt(JournalOf(j)), JournalOf(j).after))
    ensures NothingToUndo(FinalReceipt(JournalOf(j)).changes) <==> RequiredMatches(DocumentOf(j.config))
  {
    hide AppliedUpTo, Rendered, Lookup, NothingToUndo, RequiredMatches;
    RenderedMatches(j);
    UndoMeans(DocumentOf(j.config));
  }

  /** Where one installation ends, or stops with commands still to run, an upgrade to other digests or a removal can start. */
  lemma GoalStartsNext(h: Host, j: Job, plan: string, runtime: string)
    requires JobOk(j) && (h.AtGoal(j) || h.Registering(j))
    ensures InstalledBy(h.receipt.value, j)
    ensures var next := Job(h.config, h.receipt, plan, runtime);
            plan != j.plan && Controllable(DocumentOf(h.config)) ==> JobOk(next) && h.Untouched(next)
    ensures var u := Undo(h.receipt.value, h.config.value); UndoOk(u) && h.Leaving(u)
  {
    hide AppliedUpTo, Rendered, Lookup, Controllable, CurrentPreview, PlannedChanges, RequiredMatches, OriginalMatches;
    RenderedMatches(j);
    GoalIsRegistered(h, j);
    JournalReadable(h, j);
  }

  lemma GoalIsRegistered(h: Host, j: Job)
    requires JobOk(j) && (h.AtGoal(j) || h.Registering(j))
    ensures h.Registering(j)
  {
    JournalFresh(j);
    hide JournalOf, JobOk;
  }

  /* ---------- Where a removal is refused, and an entry cannot be read back ---------- */

  const REQUIRED_DOCUMENT: Document := map[
    "features" := Table(map["hooks" := Bool(true), "memories" := Bool(false)]),
    "memories" := Table(map["generate_memories" := Bool(false), "use_memories" := Bool(false),
                            "disable_on_external_context" := Bool(true)])]

  /** The first installation into a configuration that already has all five values. */
  const SETTLED := Job(Some(REQUIRED_DOCUMENT), None, "digests", "runtime")

  lemma SettledJob()
    ensures JobOk(SETTLED) && RequiredMatches(REQUIRED_DOCUMENT)
  {
    hide Lookup;
    SettledValues();
    assert forall i :: 0 <= i < |REQUIRED| ==> REQUIRED[i] in REQUIRED;
  }

  lemma SettledValues()
    ensures forall i :: 0 <= i < |REQUIRED| ==>
              && REQUIRED[i].section in REQUIRED_DOCUMENT && REQUIRED_DOCUMENT[REQUIRED[i].section].Table?
              && Lookup(REQUIRED_DOCUMENT, REQUIRED[i].section, REQUIRED[i].key) == Some(Bool(REQUIRED[i].required))
  {
  }

  /** That installation succeeds, and its removal is refused, now and whenever it is tried again. */
  method InstallThenRemove(h: Host, runner: Command -> bool, attempts: nat) returns (o: Outcome)
    requires h.Untouched(SETTLED) && (forall c :: runner(c)) && attempts > 0
    modifies h
    ensures o == Refused("uninstall_config_recovery_drift") && h.receipt.Some?
  {
    hide AppliedUpTo, RequiredMatches, NothingToUndo, UndoOk, JobOk, JournalOf, REQUIRED_DOCUMENT;
    SettledJob();
    h.InstallAfterCrashes("digests", "runtime", [], runner, SETTLED);
    FirstInstallRemovable(SETTLED);
    GoalStartsNext(h, SETTLED, "digests", "runtime");
    ghost var u := Undo(h.receipt.value, h.config.value);
    h.budget := 14;
    o := h.Uninstall(true, runner, u);
    for i := 1 to attempts
      invariant h.Leaving(u) && o == Refused("uninstall_config_recovery_drift")
    {
      h.budget := 14;
      o := h.Uninstall(true, runner, u);
    }
    LeavingHasReceipt(h, u);
  }

  lemma LeavingHasReceipt(h: Host, u: Undo)
    requires h.Leaving(u)
    ensures h.receipt.Some?
  {
  }

  const FRESH := Job(None, None, "digests", "runtime")

  /** A finished installation whose configuration file was removed afterwards: the controls have their original
      values, so a reinstallation is not refused for drift, and the entry it journals cannot be read back. */
  lemma ReinstallUnreadable()
    ensures JobOk(FRESH)
    ensures var r := FinalReceipt(JournalOf(FRESH));
            && Readable(r) && r.phase.Installed? && OriginalMatches(map[], r.changes) && !RequiredMatches(map[])
            && !Readable(PreparedReceipt(None, Some(r), "digests", "runtime"))
  {
    hide AppliedUpTo;
    OwnChanges(map[]);
    NothingMatchesNothing();
    PreparedIsReadable(None, Some(FinalReceipt(JournalOf(FRESH))), "digests", "runtime");
  }
}
