/** The five Codex configuration controls (codex/installer.py): recording, applying and restoring them. */
module CodexConfig {
  import opened Domain

  datatype Value = Bool(flag: bool) | Text(text: string)

  datatype Item = Leaf(value: Value) | Table(entries: map<string, Value>)

  type Document = map<string, Item>

  datatype Control = Control(section: string, key: string, required: bool)

  const REQUIRED: seq<Control> := [
    Control("features", "hooks", true),
    Control("features", "memories", false),
    Control("memories", "generate_memories", false),
    Control("memories", "use_memories", false),
    Control("memories", "disable_on_external_context", true)]

  /** What a receipt remembers about one control; None when the key was absent. */
  datatype Change = Change(control: Control, previous: Option<bool>)

  function EntriesOf(d: Document, section: string): map<string, Value> {
    if section in d && d[section].Table? then d[section].entries else map[]
  }

  function Lookup(d: Document, section: string, key: string): Option<Value> {
    if key in EntriesOf(d, section) then Some(EntriesOf(d, section)[key]) else None
  }

  /** Controlled sections are tables and controlled keys are booleans; anything else is refused. */
  predicate Controllable(d: Document) {
    forall c <- REQUIRED ::
      && (c.section in d ==> d[c.section].Table?)
      && (Lookup(d, c.section, c.key).Some? ==> Lookup(d, c.section, c.key).value.Bool?)
  }

  function Flag(d: Document, c: Control): Option<bool> {
    match Lookup(d, c.section, c.key)
    case Some(Bool(b)) => Some(b)
    case _ => None
  }

  function ChangesOf(d: Document): seq<Change> {
    seq(|REQUIRED|, i requires 0 <= i < |REQUIRED| => Change(REQUIRED[i], Flag(d, REQUIRED[i])))
  }

  predicate SectionsAreTables(d: Document) {
    forall c <- REQUIRED :: c.section in d ==> d[c.section].Table?
  }

  predicate RequiredMatches(d: Document) {
    forall c <- REQUIRED :: Lookup(d, c.section, c.key) == Some(Bool(c.required))
  }

  predicate OriginalMatches(d: Document, changes: seq<Change>) {
    forall c <- changes ::
      Lookup(d, c.control.section, c.control.key) == if c.previous.Some? then Some(Bool(c.previous.value)) else None
  }

  /** Receipts hold one change for each control, in order. */
  predicate ChangesOk(changes: seq<Change>) {
    |changes| == |REQUIRED| && forall i :: 0 <= i < |REQUIRED| ==> changes[i].control == REQUIRED[i]
  }

  function SetKey(d: Document, section: string, key: string, value: Value): Document {
    d[section := Table(EntriesOf(d, section)[key := value])]
  }

  function DropKey(d: Document, section: string, key: string): Document {
    if section in d && d[section].Table? then d[section := Table(d[section].entries - {key})] else d
  }

  /** The document after the first n controls are set. */
  function AppliedUpTo(d: Document, n: nat): Document
    requires n <= |REQUIRED|
  {
    if n == 0 then d
    else
      var c := REQUIRED[n - 1];
      SetKey(AppliedUpTo(d, n - 1), c.section, c.key, Bool(c.required))
  }

  function Applied(d: Document): Document {
    AppliedUpTo(d, |REQUIRED|)
  }

  function RestoredUpTo(d: Document, changes: seq<Change>, n: nat): Document
    requires n <= |changes|
  {
    if n == 0 then d
    else Undone(RestoredUpTo(d, changes, n - 1), changes[n - 1])
  }

  function Undone(d: Document, c: Change): Document {
    if c.previous.Some? then SetKey(d, c.control.section, c.control.key, Bool(c.previous.value))
    else DropKey(d, c.control.section, c.control.key)
  }

  /** The required sections in which the receipt remembers no key. */
  function NewSections(changes: seq<Change>): set<string> {
    (set c | c in REQUIRED :: c.section) - (set c | c in changes && c.previous.Some? :: c.control.section)
  }

  /** Required sections that the installation created are dropped when nothing else is left in them. */
  function Pruned(d: Document, sections: set<string>): Document {
    d - (set s | s in sections && s in d && d[s] == Table(map[]))
  }

  function Restored(d: Document, changes: seq<Change>): Document {
    Pruned(RestoredUpTo(d, changes, |changes|), NewSections(changes))
  }

  /** The document as the installer edits it. */
  class ConfigDocument {
    var items: Document

    constructor (d: Document)
      ensures items == d
    {
      items := d;
    }

    method RecordChanges() returns (ok: bool, changes: seq<Change>)
      ensures ok <==> Controllable(items)
      ensures ok ==> changes == ChangesOf(items)
    {
      changes := [];
      for i := 0 to |REQUIRED|
        invariant |changes| == i && forall k :: 0 <= k < i ==> changes[k] == Change(REQUIRED[k], Flag(items, REQUIRED[k]))
        invariant forall k :: 0 <= k < i ==>
                    && (REQUIRED[k].section in items ==> items[REQUIRED[k].section].Table?)
                    && (Lookup(items, REQUIRED[k].section, REQUIRED[k].key).Some? ==>
                          Lookup(items, REQUIRED[k].section, REQUIRED[k].key).value.Bool?)
      {
        var c := REQUIRED[i];
        assert c in REQUIRED;
        var previous := Lookup(items, c.section, c.key);
        if (c.section in items && items[c.section].Leaf?) || (previous.Some? && previous.value.Text?) {
          return false, changes;
        }
        changes := changes + [Change(c, if previous.Some? then Some(previous.value.flag) else None)];
      }
      ok := true;
    }

    /** A controlled section that is not a table is refused. */
    method ApplyRequired() returns (ok: bool)
      modifies this
      ensures ok <==> SectionsAreTables(old(items))
      ensures ok ==> items == Applied(old(items))
    {
      for i := 0 to |REQUIRED|
        invariant items == AppliedUpTo(old(items), i)
        invariant TablesUpTo(old(items), i)
      {
        var c := REQUIRED[i];
        AppliedShape(old(items), i, c.section);
        if c.section in items && items[c.section].Leaf? {
          NotTables(old(items), i);
          return false;
        }
        items := items[c.section := Table(EntriesOf(items, c.section)[c.key := Bool(c.required)])];
      }
      AllTables(old(items));
      ok := true;
    }

    method Restore(changes: seq<Change>) returns (ok: bool)
      requires ChangesOk(changes)
      modifies this
      ensures ok <==> SectionsAreTables(old(items))
      ensures ok ==> items == Restored(old(items), changes)
    {
      for i := 0 to |changes|
        invariant items == RestoredUpTo(old(items), changes, i)
        invariant TablesUpTo(old(items), i)
      {
        var c := changes[i];
        assert c.control == REQUIRED[i];
        RestoredShape(old(items), changes, i, c.control.section);
        if c.control.section in items && items[c.control.section].Leaf? {
          NotTables(old(items), i);
          return false;
        }
        if c.previous.Some? {
          items := items[c.control.section := Table(EntriesOf(items, c.control.section)[c.control.key := Bool(c.previous.value)])];
        } else if c.control.section in items {
          items := items[c.control.section := Table(items[c.control.section].entries - {c.control.key})];
        }
      }
      AllTables(old(items));
      Prune(NewSections(changes));
      ok := true;
    }

    method Prune(sections: set<string>)
      modifies this
      ensures items == Pruned(old(items), sections)
    {
      var rest := sections;
      while rest != {}
        invariant rest <= sections
        invariant items == Pruned(old(items), sections - rest)
        decreases rest
      {
        var s :| s in rest;
        PruneOne(old(items), sections - rest, s);
        assert sections - rest + {s} == sections - (rest - {s});
        if s in items && items[s] == Table(map[]) {
          items := items - {s};
        }
        rest := rest - {s};
      }
      assert sections - {} == sections;
    }
  }

  predicate TablesUpTo(d: Document, n: nat)
    requires n <= |REQUIRED|
  {
    forall i :: 0 <= i < n && REQUIRED[i].section in d ==> d[REQUIRED[i].section].Table?
  }

  lemma NotTables(d: Document, i: nat)
    requires i < |REQUIRED| && REQUIRED[i].section in d && d[REQUIRED[i].section].Leaf?
    ensures !SectionsAreTables(d)
  {
    assert REQUIRED[i] in REQUIRED;
  }

  lemma AllTables(d: Document)
    requires TablesUpTo(d, |REQUIRED|)
    ensures SectionsAreTables(d)
  {
    forall c | c in REQUIRED && c.section in d
      ensures d[c.section].Table?
    {
      var i :| 0 <= i < |REQUIRED| && REQUIRED[i] == c;
    }
  }

  /** Neither edit turns a section into something that is not a table, and none repairs one before its turn. */
  lemma {:induction false} AppliedShape(d: Document, n: nat, s: string)
    requires n <= |REQUIRED| && TablesUpTo(d, n)
    ensures s in AppliedUpTo(d, n) && AppliedUpTo(d, n)[s].Leaf? <==> s in d && d[s].Leaf?
  {
    if n > 0 {
      AppliedShape(d, n - 1, s);
    }
  }

  lemma {:induction false} RestoredShape(d: Document, changes: seq<Change>, n: nat, s: string)
    requires ChangesOk(changes) && n <= |changes| && TablesUpTo(d, n)
    ensures s in RestoredUpTo(d, changes, n) && RestoredUpTo(d, changes, n)[s].Leaf? <==> s in d && d[s].Leaf?
  {
    if n > 0 {
      RestoredShape(d, changes, n - 1, s);
      assert changes[n - 1].control == REQUIRED[n - 1];
    }
  }

  lemma PruneOne(d: Document, sections: set<string>, s: string)
    requires s !in sections
    ensures s in Pruned(d, sections) <==> s in d
    ensures s in d ==> Pruned(d, sections)[s] == d[s]
    ensures Pruned(d, sections + {s})
         == if s in d && d[s] == Table(map[]) then Pruned(d, sections) - {s} else Pruned(d, sections)
  {
  }

  /* ---------- What applying and restoring do to each key ---------- */

  predicate IsControl(section: string, key: string) {
    exists c :: c in REQUIRED && c.section == section && c.key == key
  }

  lemma SetLookup(d: Document, section: string, key: string, value: Value, s: string, k: string)
    ensures Lookup(SetKey(d, section, key, value), s, k) == if s == section && k == key then Some(value) else Lookup(d, s, k)
  {
  }

  lemma DropLookup(d: Document, section: string, key: string, s: string, k: string)
    ensures Lookup(DropKey(d, section, key), s, k) == if s == section && k == key then None else Lookup(d, s, k)
  {
  }

  lemma PruneLookup(d: Document, sections: set<string>, s: string, k: string)
    ensures Lookup(Pruned(d, sections), s, k) == Lookup(d, s, k)
  {
  }

  lemma ControlsDistinct(i: nat, j: nat)
    requires i < j < |REQUIRED|
    ensures REQUIRED[i].section != REQUIRED[j].section || REQUIRED[i].key != REQUIRED[j].key
  {
  }

  lemma {:induction false} AppliedLookup(d: Document, n: nat, s: string, k: string)
    requires n <= |REQUIRED|
    ensures (forall i :: 0 <= i < n ==> REQUIRED[i].section != s || REQUIRED[i].key != k) ==>
              Lookup(AppliedUpTo(d, n), s, k) == Lookup(d, s, k)
    ensures forall i :: 0 <= i < n && REQUIRED[i].section == s && REQUIRED[i].key == k ==>
              Lookup(AppliedUpTo(d, n), s, k) == Some(Bool(REQUIRED[i].required))
  {
    if n > 0 {
      AppliedLookup(d, n - 1, s, k);
      var c := REQUIRED[n - 1];
      SetLookup(AppliedUpTo(d, n - 1), c.section, c.key, Bool(c.required), s, k);
      forall i | 0 <= i < n - 1
        ensures REQUIRED[i].section != c.section || REQUIRED[i].key != c.key
      {
        ControlsDistinct(i, n - 1);
      }
      hide Lookup, SetKey;
    }
  }

  function Recorded(c: Change): Option<Value> {
    if c.previous.Some? then Some(Bool(c.previous.value)) else None
  }

  lemma {:induction false} RestoredLookup(d: Document, changes: seq<Change>, n: nat, s: string, k: string)
    requires ChangesOk(changes) && n <= |changes|
    ensures (forall i :: 0 <= i < n ==> REQUIRED[i].section != s || REQUIRED[i].key != k) ==>
              Lookup(RestoredUpTo(d, changes, n), s, k) == Lookup(d, s, k)
    ensures forall i :: 0 <= i < n && REQUIRED[i].section == s && REQUIRED[i].key == k ==>
              Lookup(RestoredUpTo(d, changes, n), s, k) == Recorded(changes[i])
  {
    if n > 0 {
      RestoredLookup(d, changes, n - 1, s, k);
      var c := changes[n - 1];
      assert c.control == REQUIRED[n - 1];
      if c.previous.Some? {
        SetLookup(RestoredUpTo(d, changes, n - 1), c.control.section, c.control.key, Bool(c.previous.value), s, k);
      } else {
        DropLookup(RestoredUpTo(d, changes, n - 1), c.control.section, c.control.key, s, k);
      }
      forall i | 0 <= i < n - 1
        ensures REQUIRED[i].section != c.control.section || REQUIRED[i].key != c.control.key
      {
        ControlsDistinct(i, n - 1);
      }
      hide Lookup, SetKey, DropKey;
    }
  }

  /** Restoring gives each control the value it had before the first installation, and touches no other key,
      whatever else was edited in between. */
  lemma ControlsRestored(original: Document, now: Document, s: string, k: string)
    requires Controllable(original)
    ensures var after := Restored(now, ChangesOf(original));
            Lookup(after, s, k) == if IsControl(s, k) then Lookup(original, s, k) else Lookup(now, s, k)
  {
    hide Lookup, Pruned, RestoredUpTo, IsControl, NewSections, Recorded, ChangesOf;
    var changes := ChangesOf(original);
    RecordedAll(original);
    RestoredLookup(now, changes, |changes|, s, k);
    PruneLookup(RestoredUpTo(now, changes, |changes|), NewSections(changes), s, k);
    if IsControl(s, k) {
      var i := ControlAt(s, k);
    } else {
      NotControl(s, k);
    }
  }

  lemma RecordedAll(d: Document)
    requires Controllable(d)
    ensures ChangesOk(ChangesOf(d))
    ensures forall i :: 0 <= i < |REQUIRED| ==> Recorded(ChangesOf(d)[i]) == Lookup(d, REQUIRED[i].section, REQUIRED[i].key)
  {
    hide Lookup;
    assert forall i :: 0 <= i < |REQUIRED| ==> REQUIRED[i] in REQUIRED;
  }

  lemma ControlAt(s: string, k: string) returns (i: nat)
    requires IsControl(s, k)
    ensures i < |REQUIRED| && REQUIRED[i].section == s && REQUIRED[i].key == k
  {
    var c :| c in REQUIRED && c.section == s && c.key == k;
    i :| 0 <= i < |REQUIRED| && REQUIRED[i] == c;
  }

  lemma NotControl(s: string, k: string)
    requires !IsControl(s, k)
    ensures forall i :: 0 <= i < |REQUIRED| ==> REQUIRED[i].section != s || REQUIRED[i].key != k
  {
    assert forall i :: 0 <= i < |REQUIRED| ==> REQUIRED[i] in REQUIRED;
  }

  /* ---------- When the whole document is restored ---------- */

  predicate IsSection(s: string) {
    exists c :: c in REQUIRED && c.section == s
  }

  /** Editing controls leaves other sections alone and makes controlled sections tables. */
  lemma {:induction false} AppliedSections(d: Document, n: nat, s: string)
    requires n <= |REQUIRED| && SectionsAreTables(d)
    ensures !IsSection(s) ==> (s in AppliedUpTo(d, n) <==> s in d) && (s in d ==> AppliedUpTo(d, n)[s] == d[s])
    ensures IsSection(s) && s in AppliedUpTo(d, n) ==> AppliedUpTo(d, n)[s].Table?
    ensures s in d ==> s in AppliedUpTo(d, n)
    ensures forall i :: 0 <= i < n && REQUIRED[i].section == s ==> s in AppliedUpTo(d, n)
  {
    if n > 0 {
      AppliedSections(d, n - 1, s);
      assert REQUIRED[n - 1] in REQUIRED;
    }
  }

  lemma {:induction false} RestoredSections(d: Document, changes: seq<Change>, n: nat, s: string)
    requires ChangesOk(changes) && n <= |changes| && SectionsAreTables(d)
    ensures !IsSection(s) ==> (s in RestoredUpTo(d, changes, n) <==> s in d) && (s in d ==> RestoredUpTo(d, changes, n)[s] == d[s])
    ensures IsSection(s) && s in RestoredUpTo(d, changes, n) ==> RestoredUpTo(d, changes, n)[s].Table?
    ensures s in d ==> s in RestoredUpTo(d, changes, n)
  {
    hide Undone, SectionsAreTables, IsSection;
    if n == 0 {
      if IsSection(s) && s in d {
        SectionTable(d, s);
      }
    } else {
      RestoredSections(d, changes, n - 1, s);
      assert changes[n - 1].control == REQUIRED[n - 1];
      UndoneSections(RestoredUpTo(d, changes, n - 1), changes[n - 1], s);
    }
  }

  lemma SectionTable(d: Document, s: string)
    requires SectionsAreTables(d) && IsSection(s) && s in d
    ensures d[s].Table?
  {
  }

  lemma UndoneSections(d: Document, c: Change, s: string)
    requires c.control in REQUIRED && (IsSection(s) && s in d ==> d[s].Table?)
    ensures !IsSection(s) ==> (s in Undone(d, c) <==> s in d) && (s in d ==> Undone(d, c)[s] == d[s])
    ensures IsSection(s) && s in Undone(d, c) ==> Undone(d, c)[s].Table?
    ensures s in d ==> s in Undone(d, c)
  {
    hide IsSection, EntriesOf;
    SectionOf(c.control);
  }

  lemma SectionOf(c: Control)
    requires c in REQUIRED
    ensures IsSection(c.section)
  {
  }

  lemma AppliedTables(d: Document)
    requires SectionsAreTables(d)
    ensures SectionsAreTables(Applied(d))
    ensures forall s :: IsSection(s) ==> s in Applied(d)
  {
    hide AppliedUpTo;
    forall c | c in REQUIRED
      ensures c.section in Applied(d) && Applied(d)[c.section].Table?
    {
      var i :| 0 <= i < |REQUIRED| && REQUIRED[i] == c;
      AppliedSections(d, |REQUIRED|, c.section);
    }
  }

  /** Once both edits are done, a controlled section holds exactly the entries it had at first. */
  lemma SectionRestored(d: Document, s: string)
    requires Controllable(d) && IsSection(s)
    ensures var middle := RestoredUpTo(Applied(d), ChangesOf(d), |REQUIRED|);
            s in middle && middle[s] == Table(EntriesOf(d, s))
  {
    hide AppliedUpTo, RestoredUpTo;
    var changes := ChangesOf(d);
    var middle := RestoredUpTo(Applied(d), changes, |REQUIRED|);
    AppliedTables(d);
    RestoredSections(Applied(d), changes, |REQUIRED|, s);
    forall k: string
      ensures Lookup(middle, s, k) == Lookup(d, s, k)
    {
      ControlsRestored(d, Applied(d), s, k);
      PruneLookup(middle, NewSections(changes), s, k);
      UncontrolledKept(d, s, k);
    }
    SameEntries(middle, d, s);
  }

  lemma UncontrolledKept(d: Document, s: string, k: string)
    ensures !IsControl(s, k) ==> Lookup(Applied(d), s, k) == Lookup(d, s, k)
  {
    AppliedLookup(d, |REQUIRED|, s, k);
    hide AppliedUpTo, Lookup;
    assert forall i :: 0 <= i < |REQUIRED| ==> REQUIRED[i] in REQUIRED;
  }

  lemma SameEntries(a: Document, b: Document, s: string)
    requires forall k: string :: Lookup(a, s, k) == Lookup(b, s, k)
    ensures EntriesOf(a, s) == EntriesOf(b, s)
  {
    forall k
      ensures k in EntriesOf(a, s) <==> k in EntriesOf(b, s)
      ensures k in EntriesOf(a, s) ==> EntriesOf(a, s)[k] == EntriesOf(b, s)[k]
    {
      assert Lookup(a, s, k) == Lookup(b, s, k);
    }
  }

  /** A section whose keys are all remembered as absent had no controlled key at first. */
  lemma NewSectionMeans(d: Document, s: string)
    requires IsSection(s) && EntriesOf(d, s) == map[]
    ensures s in NewSections(ChangesOf(d))
  {
    var changes := ChangesOf(d);
    forall c | c in changes && c.control.section == s
      ensures c.previous.None?
    {
      var i :| 0 <= i < |changes| && changes[i] == c;
      assert Lookup(d, s, c.control.key) == None;
    }
  }

  ghost predicate EmptySection(d: Document) {
    exists s :: IsSection(s) && s in d && d[s] == Table(map[])
  }

  lemma SectionOutcome(d: Document, s: string)
    requires Controllable(d)
    ensures var after := Restored(Applied(d), ChangesOf(d));
            if IsSection(s) && EntriesOf(d, s) == map[] then s !in after
            else (s in after <==> s in d) && (s in d ==> after[s] == d[s])
  {
    hide AppliedUpTo, RestoredUpTo, NewSections;
    var changes := ChangesOf(d);
    var middle := RestoredUpTo(Applied(d), changes, |changes|);
    if IsSection(s) {
      SectionRestored(d, s);
      var c :| c in REQUIRED && c.section == s;
      if EntriesOf(d, s) == map[] {
        NewSectionMeans(d, s);
      }
    } else {
      AppliedTables(d);
      AppliedSections(d, |REQUIRED|, s);
      RestoredSections(Applied(d), changes, |changes|, s);
      OnlyNewPruned(middle, changes, s);
    }
  }

  lemma OnlyNewPruned(d: Document, changes: seq<Change>, s: string)
    requires !IsSection(s)
    ensures s in Pruned(d, NewSections(changes)) <==> s in d
    ensures s in d ==> Pruned(d, NewSections(changes))[s] == d[s]
  {
    assert s !in NewSections(changes);
  }

  /** Installing and uninstalling gives back the whole document exactly when no controlled section was there but empty. */
  lemma WholeDocumentRestored(d: Document)
    requires Controllable(d)
    ensures Restored(Applied(d), ChangesOf(d)) == d <==> !EmptySection(d)
  {
    hide Applied, Restored;
    var after := Restored(Applied(d), ChangesOf(d));
    forall s: string
      ensures if IsSection(s) && EntriesOf(d, s) == map[] then s !in after
              else (s in after <==> s in d) && (s in d ==> after[s] == d[s])
    {
      SectionOutcome(d, s);
    }
    if EmptySection(d) {
      var s :| IsSection(s) && s in d && d[s] == Table(map[]);
      assert s !in after;
    } else {
      forall s: string
        ensures (s in after <==> s in d) && (s in d ==> after[s] == d[s])
      {
        if IsSection(s) {
          var c :| c in REQUIRED && c.section == s;
          assert s in d ==> d[s] == Table(EntriesOf(d, s));
        }
      }
    }
  }

  /** A document with one empty controlled section does not come back. */
  lemma EmptySectionLost()
    ensures var d: Document := map["features" := Table(map[])];
            Controllable(d) && Restored(Applied(d), ChangesOf(d)) != d
  {
    hide Applied, Restored;
    var d: Document := map["features" := Table(map[])];
    assert REQUIRED[0].section == "features" && REQUIRED[0] in REQUIRED;
    assert IsSection("features");
    WholeDocumentRestored(d);
  }

  /** A document that already has the required values is left as it is, by applying and by restoring. */
  lemma {:induction false} AlreadyRequired(d: Document, n: nat)
    requires RequiredMatches(d) && n <= |REQUIRED|
    ensures AppliedUpTo(d, n) == d
  {
    if n > 0 {
      AlreadyRequired(d, n - 1);
      var c := REQUIRED[n - 1];
      assert c in REQUIRED;
      assert EntriesOf(d, c.section)[c.key := Bool(c.required)] == EntriesOf(d, c.section);
    }
  }

  /** After applying, every control has its required value. */
  lemma AppliedMatches(d: Document)
    ensures RequiredMatches(Applied(d))
  {
    hide AppliedUpTo, Lookup;
    forall c | c in REQUIRED
      ensures Lookup(Applied(d), c.section, c.key) == Some(Bool(c.required))
    {
      var i :| 0 <= i < |REQUIRED| && REQUIRED[i] == c;
      AppliedLookup(d, |REQUIRED|, c.section, c.key);
    }
  }

  /** After restoring, every control has its recorded value. */
  lemma RestoredMatches(d: Document, changes: seq<Change>)
    requires ChangesOk(changes)
    ensures OriginalMatches(Restored(d, changes), changes)
  {
    hide RestoredUpTo, Lookup, NewSections, Pruned;
    forall c | c in changes
      ensures Lookup(Restored(d, changes), c.control.section, c.control.key) == Recorded(c)
    {
      var i :| 0 <= i < |changes| && changes[i] == c;
      RestoredLookup(d, changes, |changes|, c.control.section, c.control.key);
      PruneLookup(RestoredUpTo(d, changes, |changes|), NewSections(changes), c.control.section, c.control.key);
    }
  }
}
