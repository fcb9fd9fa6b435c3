/** Removing the desktop demonstration (codex/demo_installer.py): a forward-only receipt, one managed configuration
    entry and one staged artifact, resumed after a crash at any atomic step. */
module DemoTeardown {
  import opened Domain

  datatype Node = Leaf(text: string) | Table(entries: map<string, Node>)

  type Document = map<string, Node>

  const SERVERS := "mcp_servers"
  const MANAGED := "verity_cordon_poisoned_docs"

  /* ---------- The managed entry ---------- */

  /** The servers section, if there is one, is a table. */
  predicate Editable(d: Document) {
    SERVERS in d ==> d[SERVERS].Table?
  }

  function Servers(d: Document): map<string, Node> {
    if SERVERS in d && d[SERVERS].Table? then d[SERVERS].entries else map[]
  }

  function Managed(d: Document): Option<Node> {
    if MANAGED in Servers(d) then Some(Servers(d)[MANAGED]) else None
  }

  function WithManaged(d: Document, entry: Node): Document {
    d[SERVERS := Table(Servers(d)[MANAGED := entry])]
  }

  function WithoutManaged(d: Document, removeEmptyParent: bool): Document
    requires SERVERS in d
  {
    var rest := Servers(d) - {MANAGED};
    if removeEmptyParent && rest == map[] then d - {SERVERS} else d[SERVERS := Table(rest)]
  }

  /** Everything outside the managed entry; the parent table counts only if it was there before or holds more. */
  function Unrelated(d: Document, parentBefore: bool): Document {
    if SERVERS !in d then d
    else
      var rest := Servers(d) - {MANAGED};
      if rest != map[] || parentBefore then d[SERVERS := Table(rest)] else d - {SERVERS}
  }

  class Configuration {
    var items: Document

    constructor (d: Document)
      ensures items == d
    {
      items := d;
    }

    method SetManaged(entry: Node) returns (ok: bool)
      modifies this
      ensures ok <==> Editable(old(items))
      ensures items == if ok then WithManaged(old(items), entry) else old(items)
    {
      if SERVERS !in items {
        items := items[SERVERS := Table(map[])];
      }
      if items[SERVERS].Leaf? {
        return false;
      }
      items := items[SERVERS := Table(items[SERVERS].entries[MANAGED := entry])];
      ok := true;
    }

    method RemoveManaged(removeEmptyParent: bool) returns (ok: bool)
      modifies this
      ensures ok <==> Managed(old(items)).Some?
      ensures items == if ok then WithoutManaged(old(items), removeEmptyParent) else old(items)
    {
      if SERVERS !in items || items[SERVERS].Leaf? || MANAGED !in items[SERVERS].entries {
        return false;
      }
      items := items[SERVERS := Table(items[SERVERS].entries - {MANAGED})];
      if removeEmptyParent && |items[SERVERS].entries| == 0 {
        items := items - {SERVERS};
      }
      ok := true;
    }
  }

  /** Removing undoes setting, parent table included, exactly when there was no managed entry before. */
  lemma RemovalUndoesSetting(d: Document, entry: Node)
    requires Editable(d)
    ensures WithoutManaged(WithManaged(d, entry), SERVERS !in d) == d <==> Managed(d).None?
    ensures Managed(WithManaged(d, entry)) == Some(entry)
  {
    var rest := Servers(WithManaged(d, entry)) - {MANAGED};
    assert rest == Servers(d) - {MANAGED};
    if Managed(d).None? {
      assert rest == Servers(d);
      if SERVERS !in d {
        assert rest == map[];
      }
    } else {
      assert MANAGED !in rest;
    }
  }

  /** Neither edit touches any other value. */
  lemma UnrelatedKept(d: Document, entry: Node, parentBefore: bool)
    requires Editable(d) && (parentBefore ==> SERVERS in d)
    ensures parentBefore == (SERVERS in d) ==> Unrelated(WithManaged(d, entry), parentBefore) == Unrelated(d, parentBefore)
    ensures SERVERS in d ==>
              && Unrelated(WithoutManaged(d, !parentBefore), parentBefore) == Unrelated(d, parentBefore)
              && Managed(WithoutManaged(d, !parentBefore)).None?
  {
    assert Servers(WithManaged(d, entry)) - {MANAGED} == Servers(d) - {MANAGED};
    if SERVERS in d {
      var after := WithoutManaged(d, !parentBefore);
      assert (Servers(d) - {MANAGED}) - {MANAGED} == Servers(d) - {MANAGED};
    }
  }

  /* ---------- The receipt ---------- */

  datatype Version = V100 | V110 | V120

  datatype State = Prepared | Failed | Installed | Removing | Removed

  datatype ArtifactRemoval = Planned | Done

  datatype Receipt = Receipt(
    version: Version, state: State, configMode: Option<nat>, unrelated: Option<Document>, configAfter: Option<Document>,
    failed: bool, parentPresent: bool, entry: Node, artifact: string, removal: Option<ArtifactRemoval>,
    requestedAt: Option<Time>, completedAt: Option<Time>, configAfterTeardown: Option<Document>)

  /** An owner-readable mode that nobody else can use. */
  predicate PrivateMode(mode: nat) {
    mode <= 0x1FF && mode % 64 == 0 && mode / 256 == 1
  }

  predicate EmptyTeardown(r: Receipt) {
    r.requestedAt.None? && r.completedAt.None? && r.configAfterTeardown.None?
  }

  predicate ValidReceipt(r: Receipt) {
    && (!r.version.V100? ==> r.configMode.Some? && r.unrelated.Some? && PrivateMode(r.configMode.value))
    && match r.state
       case Prepared => r.configAfter.None? && !r.failed && EmptyTeardown(r) && r.removal.None?
       case Failed => !r.version.V100? && r.configAfter.Some? && r.failed && EmptyTeardown(r) && r.removal.None?
       case Installed => r.configAfter.Some? && !r.failed && EmptyTeardown(r) && r.removal.None?
       case Removing =>
         && r.version.V120? && r.configAfter.Some? && !r.failed && r.requestedAt.Some? && r.completedAt.None?
         && r.configAfterTeardown.None? && r.removal == Some(Planned)
       case Removed =>
         && r.configAfter.Some? && !r.failed && r.requestedAt.Some? && r.completedAt.Some? && r.configAfterTeardown.Some?
         && (if r.version.V120? then r.removal == Some(Done) else r.removal.None?)
  }

  predicate Edge(a: State, b: State) {
    || (a.Prepared? && (b.Failed? || b.Installed?))
    || ((a.Failed? || a.Installed?) && b.Removing?)
    || (a.Removing? && b.Removed?)
  }

  /** The values a caller has just verified on disk. */
  datatype Verified = Verified(mode: nat, unrelated: Document, config: Document)

  /** One forward transition; the result is checked again before it is returned. */
  function Transition(r: Receipt, target: State, at: Time, config: Option<Document>, verified: Option<Verified>): Option<Receipt> {
    if !ValidReceipt(r) || !Edge(r.state, target) || (!target.Removing? && config.None?) then None
    else
      var moved := r.(state := target);
      var updated :=
        match target
        case Failed => Some(moved.(configAfter := config, failed := true))
        case Installed => Some(moved.(configAfter := config))
        case Removing =>
          var planned := moved.(failed := false, removal := Some(Planned), requestedAt := Some(at));
          if r.version.V120? then Some(planned)
          else if verified.None? || !PrivateMode(verified.value.mode) then None
          else Some(planned.(version := V120, configMode := Some(verified.value.mode),
                             unrelated := Some(verified.value.unrelated), configAfter := Some(verified.value.config)))
        case Removed =>
          if r.removal.None? then None
          else Some(moved.(removal := Some(Done), completedAt := Some(at), configAfterTeardown := config))
        case Prepared => None;
      if updated.Some? && ValidReceipt(updated.value) then updated else None
  }

  /** The transitions that the receipt's own rules allow: the final check never refuses one of them, except that a
      receipt of the first version cannot record a failure. */
  lemma TransitionExact(r: Receipt, target: State, at: Time, config: Option<Document>, verified: Option<Verified>)
    ensures var t := Transition(r, target, at, config, verified);
            && (t.Some? <==>
                && ValidReceipt(r) && Edge(r.state, target)
                && (!target.Removing? ==> config.Some?)
                && (target.Failed? ==> !r.version.V100?)
                && (target.Removing? && !r.version.V120? ==> verified.Some? && PrivateMode(verified.value.mode)))
            && (t.Some? ==>
                && ValidReceipt(t.value) && t.value.state == target && Rank(t.value.state) > Rank(r.state)
                && t.value.entry == r.entry && t.value.parentPresent == r.parentPresent && t.value.artifact == r.artifact)
  {
  }

  function Rank(s: State): nat {
    match s
    case Prepared => 0
    case Failed => 1
    case Installed => 1
    case Removing => 2
    case Removed => 3
  }

  /* ---------- Teardown ---------- */

  datatype Outcome = TornDown | Refused(error: string) | Crashed

  /** Fixed when the teardown starts: the receipt and configuration found. */
  datatype Job = Job(receipt: Receipt, document: Document)

  predicate JobOk(j: Job) {
    && ValidReceipt(j.receipt) && (j.receipt.state.Failed? || j.receipt.state.Installed?)
    && Editable(j.document) && Managed(j.document) == Some(j.receipt.entry)
  }

  function Cleaned(j: Job): Document
    requires JobOk(j)
  {
    WithoutManaged(j.document, !j.receipt.parentPresent)
  }

  /** A receipt on its way out that still describes the job's entry and artifact. */
  predicate Planning(j: Job, r: Receipt) {
    && ValidReceipt(r) && r.state.Removing?
    && r.entry == j.receipt.entry && r.parentPresent == j.receipt.parentPresent && r.artifact == j.receipt.artifact
  }

  /** What an operator reviews before confirming. */
  datatype Preview = Preview(receipt: Receipt, config: Document, artifactsValid: bool, artifactsPresent: bool, runtimesIntact: bool)

  class Desktop {
    var config: Option<Document>
    var receipt: Option<Receipt>
    var mode: nat
    /** The staging directory, the artifact under its own and its quarantine name, and whether it holds any other file. */
    var directory: bool
    var artifact: Option<string>
    var quarantined: Option<string>
    var foreignFiles: bool
    /** Atomic steps left before the next crash. */
    var budget: nat

    predicate ArtifactKnown(digest: string)
      reads this`artifact, this`quarantined, this`directory
    {
      && (artifact == None || (artifact == Some(digest) && quarantined == None))
      && (quarantined == None || quarantined == Some(digest))
      && (!directory ==> artifact == None && quarantined == None)
    }

    /** Every state a teardown can be found in: the journal first, then the configuration, then the artifact. */
    predicate Toward(j: Job)
      requires JobOk(j)
      reads this`config, this`receipt, this`mode, this`directory, this`artifact, this`quarantined
    {
      && PrivateMode(mode) && ArtifactKnown(j.receipt.artifact) && receipt.Some?
      && (receipt.value == j.receipt || Planning(j, receipt.value))
      && (config == Some(j.document) || (Planning(j, receipt.value) && config == Some(Cleaned(j))))
      && (config == Some(j.document) ==> artifact.Some?)
    }

    predicate Gone(j: Job)
      requires JobOk(j)
      reads this`config, this`receipt, this`directory, this`artifact, this`quarantined
    {
      && receipt.Some? && ValidReceipt(receipt.value) && receipt.value.state.Removed?
      && receipt.value.configAfterTeardown == config == Some(Cleaned(j))
      && !directory && artifact == None && quarantined == None
    }

    /** Whether the artifact is in a position the receipt explains, and whether it is still under its own name. */
    function ArtifactState(r: Receipt): (bool, bool)
      reads this`directory, this`artifact, this`quarantined
    {
      if !directory then (true, false)
      else if artifact.Some? && quarantined.Some? then (false, false)
      else if quarantined.Some? then (r.state.Removing? && r.removal == Some(Planned) && quarantined.value == r.artifact, false)
      else if artifact.None? then (true, false)
      else if r.removal == Some(Done) || artifact.value != r.artifact then (false, false)
      else (true, true)
    }

    function CurrentPreview(r: Receipt, runtimesIntact: bool): Preview
      reads this
    {
      Preview(r, if config.Some? then config.value else map[], ArtifactState(r).0, ArtifactState(r).1, runtimesIntact)
    }

    method WriteReceipt(r: Receipt) returns (done: bool)
      modifies this`receipt, this`budget
      ensures done <==> old(budget) > 0
      ensures receipt == (if done then Some(r) else old(receipt)) && budget == old(budget) - if done then 1 else 0
    {
      done := budget > 0;
      if done { receipt, budget := Some(r), budget - 1; }
    }

    method WriteConfig(d: Document) returns (done: bool)
      modifies this`config, this`budget
      ensures done <==> old(budget) > 0
      ensures config == (if done then Some(d) else old(config)) && budget == old(budget) - if done then 1 else 0
    {
      done := budget > 0;
      if done { config, budget := Some(d), budget - 1; }
    }

    /** The rename to the quarantine name and the unlink are two steps; the second can be all that is left. */
    method RemoveArtifact(digest: string) returns (o: Outcome)
      requires ArtifactKnown(digest)
      modifies this`artifact, this`quarantined, this`budget
      ensures ArtifactKnown(digest) && !o.Refused?
      ensures o.TornDown? ==> artifact == None && quarantined == None
      ensures budget + 2 >= old(budget) && (old(budget) >= 2 ==> o.TornDown?)
    {
      if artifact.Some? && quarantined.Some? {
        return Refused("staged_artifact_drift");
      }
      if artifact.None? && quarantined.None? {
        return TornDown;
      }
      var observed := if artifact.Some? then artifact.value else quarantined.value;
      if observed != digest {
        return Refused("staged_artifact_drift");
      }
      if artifact.Some? {
        if budget == 0 { return Crashed; }
        quarantined, artifact, budget := artifact, None, budget - 1;
      }
      if budget == 0 { return Crashed; }
      quarantined, budget := None, budget - 1;
      o := TornDown;
    }

    /** rmdir: an operator's own file in the directory stops the teardown for good. */
    method RemoveDirectory() returns (o: Outcome)
      requires artifact == None && quarantined == None
      modifies this`directory, this`budget
      ensures directory == (old(directory) && !o.TornDown?)
      ensures old(directory) && foreignFiles ==> o == Refused("staged_artifact_drift")
      ensures !(old(directory) && foreignFiles) ==> !o.Refused? && (old(budget) >= 1 ==> o.TornDown?)
      ensures budget + 1 >= old(budget)
    {
      if !directory {
        return TornDown;
      }
      if foreignFiles {
        return Refused("staged_artifact_drift");
      }
      if budget == 0 { return Crashed; }
      directory, budget := false, budget - 1;
      o := TornDown;
    }

    /** The journal entry of the removal, unless an earlier run has written it. */
    method JournalRemoval(r: Receipt, at: Time, ghost j: Job) returns (o: Outcome)
      requires JobOk(j) && Toward(j) && receipt == Some(r)
      modifies this`receipt, this`budget
      ensures Toward(j) && !o.Refused? && budget + 1 >= old(budget) && (old(budget) >= 1 ==> o.TornDown?)
      ensures o.TornDown? ==> Planning(j, receipt.value)
    {
      hide ValidReceipt, Unrelated, WithoutManaged;
      PlannedRemoval(j, r);
      if r.state.Failed? || r.state.Installed? {
        var verified := Some(Verified(mode, Unrelated(config.value, r.parentPresent), config.value));
        TransitionExact(r, Removing, at, None, verified);
        var removing := Transition(r, Removing, at, None, verified);
        if removing.None? {
          return Refused("receipt_transition_invalid");
        }
        var done := WriteReceipt(removing.value);
        if !done { return Crashed; }
      }
      o := TornDown;
    }

    /** The journal entry and the configuration edit. */
    method RemoveEntry(r: Receipt, at: Time, ghost j: Job) returns (o: Outcome)
      requires JobOk(j) && Toward(j) && receipt == Some(r)
      modifies this`config, this`receipt, this`budget
      ensures Toward(j) && !o.Refused? && budget + 2 >= old(budget) && (old(budget) >= 2 ==> o.TornDown?)
      ensures o.TornDown? ==> Planning(j, receipt.value) && config == Some(Cleaned(j))
    {
      var document := config.value;
      UnrelatedKept(j.document, j.receipt.entry, j.receipt.parentPresent);
      hide ValidReceipt, Unrelated, WithoutManaged;
      var before := Unrelated(document, r.parentPresent);
      o := JournalRemoval(r, at, j);
      if !o.TornDown? { return; }
      if Managed(document) == Some(r.entry) {
        var edited := new Configuration(document);
        var _ := edited.RemoveManaged(!r.parentPresent);
        var done := WriteConfig(edited.items);
        if !done { return Crashed; }
      }
      if Managed(config.value).Some? || Unrelated(config.value, r.parentPresent) != before {
        return Refused("teardown_config_verification_failed");
      }
      o := TornDown;
    }

    /** The artifact, its directory and the last receipt, once the configuration is clean. */
    method RemoveRest(at: Time, ghost j: Job) returns (o: Outcome)
      requires JobOk(j) && Toward(j) && Planning(j, receipt.value) && config == Some(Cleaned(j))
      modifies this`receipt, this`directory, this`artifact, this`quarantined, this`budget
      ensures if o.TornDown? then Gone(j) else Toward(j)
      ensures !foreignFiles ==> !o.Refused? && (old(budget) >= 4 ==> o.TornDown?)
      ensures foreignFiles && old(directory) ==> !o.TornDown? && (old(budget) >= 4 ==> o == Refused("staged_artifact_drift"))
    {
      CleanedDiffers(j);
      hide ValidReceipt, Unrelated, WithoutManaged, JobOk;
      o := RemoveArtifact(receipt.value.artifact);
      if !o.TornDown? { return; }
      o := RemoveDirectory();
      if !o.TornDown? { return; }
      TransitionExact(receipt.value, Removed, at, config, None);
      var removed := Transition(receipt.value, Removed, at, config, None);
      if removed.None? {
        return Refused("receipt_transition_invalid");
      }
      RemovedConfig(receipt.value, at, config);
      var done := WriteReceipt(removed.value);
      o := if done then TornDown else Crashed;
    }

    /** The confirmed teardown, resumed from whatever the receipt and the disk say. */
    method Teardown(confirm: Preview, runtimesIntact: bool, at: Time, ghost j: Job) returns (o: Outcome)
      requires JobOk(j) && Toward(j)
      modifies this`config, this`receipt, this`directory, this`artifact, this`quarantined, this`budget
      ensures if o.TornDown? then Gone(j) else Toward(j)
      ensures confirm != old(CurrentPreview(receipt.value, runtimesIntact)) || !runtimesIntact ==> o.Refused? && unchanged(this)
      ensures confirm == old(CurrentPreview(receipt.value, runtimesIntact)) && runtimesIntact ==>
                && (!foreignFiles ==> !o.Refused? && (old(budget) >= 6 ==> o.TornDown?))
                && (foreignFiles && old(directory) ==> !o.TornDown? && (old(budget) >= 6 ==> o == Refused("staged_artifact_drift")))
    {
      UnrelatedKept(j.document, j.receipt.entry, j.receipt.parentPresent);
      hide ValidReceipt, Unrelated, WithoutManaged;
      var r := receipt.value;
      var document := config.value;
      var removing := r.state.Removing?;
      var managedRecoverable := Managed(document) == Some(r.entry) || (removing && Managed(document).None?);
      var (artifactsValid, artifactsPresent) := ArtifactState(r);
      if confirm != CurrentPreview(r, runtimesIntact) {
        return Refused("config_changed_after_preview");
      }
      if !managedRecoverable {
        return Refused("managed_entry_drift");
      }
      PlannedRemoval(j, r);
      if !artifactsValid || (!artifactsPresent && !removing) {
        return Refused("staged_artifact_drift");
      }
      if !runtimesIntact {
        return Refused("runtime_drift");
      }
      o := RemoveEntry(r, at, j);
      if !o.TornDown? { return; }
      o := RemoveRest(at, j);
    }

    /** Any number of crashes, then one undisturbed run, in a directory without foreign files: the entry and the artifact
        are gone, every other value is as it was, and the receipt says removed. */
    method TeardownAfterCrashes(crashes: seq<nat>, at: Time, ghost j: Job)
      requires JobOk(j) && Toward(j) && !foreignFiles
      modifies this
      ensures Gone(j)
      ensures Managed(config.value).None?
      ensures Unrelated(config.value, j.receipt.parentPresent) == Unrelated(j.document, j.receipt.parentPresent)
    {
      UnrelatedKept(j.document, j.receipt.entry, j.receipt.parentPresent);
      hide JobOk, Unrelated;
      var o;
      for i := 0 to |crashes|
        invariant Toward(j) && !foreignFiles
      {
        budget := crashes[i];
        o := Teardown(CurrentPreview(receipt.value, true), true, at, j);
        if o.TornDown? { return; }
      }
      budget := 6;
      o := Teardown(CurrentPreview(receipt.value, true), true, at, j);
    }
  }

  lemma CleanedDiffers(j: Job)
    requires JobOk(j)
    ensures Cleaned(j) != j.document
  {
    UnrelatedKept(j.document, j.receipt.entry, false);
    assert MANAGED in Servers(j.document);
    if SERVERS in Cleaned(j) {
      assert MANAGED !in Servers(Cleaned(j));
    }
  }

  lemma PlannedRemoval(j: Job, r: Receipt)
    requires JobOk(j) && (r == j.receipt || Planning(j, r))
    ensures r.state.Removing? <==> Planning(j, r)
    ensures r.removal == if r.state.Removing? then Some(Planned) else None
    ensures r.state.Failed? || r.state.Installed? || r.state.Removing?
  {
  }

  lemma RemovedConfig(r: Receipt, at: Time, config: Option<Document>)
    ensures Transition(r, Removed, at, config, None).Some? ==> Transition(r, Removed, at, config, None).value.configAfterTeardown == config
  {
  }
}
