/** What canonical text means (crypto/canonical.py): it parses back, and equal text is equal values up to member order. */
module CanonicalForm {
  import opened Domain
  import opened Ordering
  import JsonStrings
  import opened CanonicalJson

  /* ---------- Ordering members by name ---------- */

  lemma NameOrder()
    ensures TotalOrder(MemberLe)
    ensures forall m :: MemberLe(m, m)
  {
    forall a: Member, b: Member ensures MemberLe(a, b) || MemberLe(b, a) {
      StringTotal(a.name, b.name);
    }
    forall a: Member, b: Member, c: Member | MemberLe(a, b) && MemberLe(b, c) ensures MemberLe(a, c) {
      StringTransitive(a.name, b.name, c.name);
    }
  }

  /** In a dictionary, equal names mean the same member, so sorting by name is decided. */
  lemma NamesDecide(members: seq<Member>)
    requires DistinctNames(members)
    ensures Antisymmetric(MemberLe, multiset(members))
  {
    forall a, b | a in multiset(members) && b in multiset(members) && MemberLe(a, b) && MemberLe(b, a)
      ensures a == b
    {
      StringTotal(a.name, b.name);
      var i :| 0 <= i < |members| && members[i] == a;
      var j :| 0 <= j < |members| && members[j] == b;
    }
  }

  /** A list of members with distinct names holds each of them once. */
  lemma {:induction false} HeldOnce(members: seq<Member>, m: Member)
    requires DistinctNames(members)
    ensures multiset(members)[m] == if m in members then 1 else 0
  {
    if members != [] {
      assert members == [members[0]] + members[1..];
      HeldOnce(members[1..], m);
    }
  }

  lemma SameMembers(a: seq<Member>, b: seq<Member>)
    requires DistinctNames(a) && DistinctNames(b) && |a| == |b|
    requires forall m <- a :: m in b
    ensures multiset(a) == multiset(b)
  {
    forall m ensures multiset(a)[m] <= multiset(b)[m] {
      HeldOnce(a, m);
      HeldOnce(b, m);
    }
    var extra := multiset(b) - multiset(a);
    assert multiset(b) == multiset(a) + extra;
    assert |extra| == 0;
  }

  lemma DistinctKept(a: seq<Member>, b: seq<Member>)
    requires DistinctNames(a) && multiset(a) == multiset(b)
    ensures DistinctNames(b)
  {
    forall i, j | 0 <= i < j < |b|
      ensures b[i].name != b[j].name
    {
      assert b[i] in multiset(b) && b[j] in multiset(b);
      if b[i] == b[j] {
        assert b == b[..i] + [b[i]] + b[i + 1..j] + [b[j]] + b[j + 1..];
        assert multiset(b)[b[i]] >= 2;
        HeldOnce(a, b[i]);
        assert false;
      }
      var k :| 0 <= k < |a| && a[k] == b[i];
      var l :| 0 <= l < |a| && a[l] == b[j];
    }
  }

  /* ---------- Normal values ---------- */

  /** The members with normal values, before they are sorted. */
  function NormalMembers(members: seq<Member>): (r: seq<Member>)
    ensures |r| == |members|
  {
    seq(|members|, i requires 0 <= i < |members| => Member(members[i].name, Normal(members[i].value)))
  }

  lemma NormalObject(members: seq<Member>)
    requires DistinctNames(members)
    ensures Normal(JObject(members)) == JObject(Sort(NormalMembers(members), MemberLe))
    ensures DistinctNames(NormalMembers(members))
    ensures Antisymmetric(MemberLe, multiset(NormalMembers(members)))
    ensures multiset(Sort(NormalMembers(members), MemberLe)) == multiset(NormalMembers(members))
    ensures Sorted(Sort(NormalMembers(members), MemberLe), MemberLe)
    ensures DistinctNames(Sort(NormalMembers(members), MemberLe))
  {
    var n := NormalMembers(members);
    assert n == seq(|members|, i requires 0 <= i < |members| => Member(members[i].name, Normal(members[i].value)));
    NamesDecide(n);
    NameOrder();
    SortSorts(n, MemberLe);
    DistinctKept(n, Sort(n, MemberLe));
  }

  /** Every member of the sorted object is a normalised member of the original. */
  lemma FromMember(members: seq<Member>, j: int) returns (i: int)
    requires DistinctNames(members) && 0 <= j < |Normal(JObject(members)).members|
    ensures 0 <= i < |members|
    ensures Normal(JObject(members)).members[j] == Member(members[i].name, Normal(members[i].value))
  {
    NormalObject(members);
    var sorted := Sort(NormalMembers(members), MemberLe);
    assert sorted[j] in multiset(sorted);
    assert sorted[j] in NormalMembers(members);
    i :| 0 <= i < |members| && NormalMembers(members)[i] == sorted[j];
  }

  lemma {:induction false} NormalKeeps(v: Json)
    requires Dictionary(v)
    ensures Dictionary(Normal(v))
    ensures NoFloats(v) ==> NoFloats(Normal(v))
  {
    match v
    case JArray(items) =>
      forall i | 0 <= i < |items|
        ensures Dictionary(Normal(items[i])) && (NoFloats(v) ==> NoFloats(Normal(items[i])))
      {
        NormalKeeps(items[i]);
      }
    case JObject(members) =>
      NormalObject(members);
      var n := Normal(v).members;
      forall j | 0 <= j < |n|
        ensures Dictionary(n[j].value) && (NoFloats(v) ==> NoFloats(n[j].value))
      {
        var i := FromMember(members, j);
        NormalKeeps(members[i].value);
      }
    case _ =>
  }

  /** A normal value is already in its printed order. */
  lemma {:induction false} NormalTwice(v: Json)
    requires Dictionary(v)
    ensures Normal(Normal(v)) == Normal(v)
  {
    match v
    case JArray(items) =>
      forall i | 0 <= i < |items|
        ensures Normal(Normal(items[i])) == Normal(items[i])
      {
        NormalTwice(items[i]);
      }
    case JObject(members) =>
      NormalObject(members);
      var n := Normal(v).members;
      forall j | 0 <= j < |n|
        ensures Normal(n[j].value) == n[j].value
      {
        var i := FromMember(members, j);
        NormalTwice(members[i].value);
      }
      assert NormalMembers(n) == n;
      NormalObject(n);
      NameOrder();
      SortedUnique(Sort(n, MemberLe), n, MemberLe);
    case _ =>
  }

  /** Normal forms decide equality up to member order. */
  lemma {:induction false} NormalDecides(a: Json, b: Json)
    requires Dictionary(a) && Dictionary(b)
    ensures Normal(a) == Normal(b) <==> Same(a, b)
    decreases a
  {
    if a.JArray? && b.JArray? && |a.items| == |b.items| {
      forall i | 0 <= i < |a.items|
        ensures Normal(a.items[i]) == Normal(b.items[i]) <==> Same(a.items[i], b.items[i])
      {
        NormalDecides(a.items[i], b.items[i]);
      }
      ArraysDecided(a, b);
    } else if a.JArray? && b.JArray? {
      assert |Normal(a).items| != |Normal(b).items|;
    } else if a.JObject? && b.JObject? {
      forall i, j | 0 <= i < |a.members| && 0 <= j < |b.members|
        ensures Normal(a.members[i].value) == Normal(b.members[j].value) <==> Same(a.members[i].value, b.members[j].value)
      {
        NormalDecides(a.members[i].value, b.members[j].value);
      }
      ObjectsDecided(a.members, b.members);
    }
  }

  lemma ArraysDecided(a: Json, b: Json)
    requires a.JArray? && b.JArray? && |a.items| == |b.items|
    requires forall i :: 0 <= i < |a.items| ==> (Normal(a.items[i]) == Normal(b.items[i]) <==> Same(a.items[i], b.items[i]))
    ensures Normal(a) == Normal(b) <==> Same(a, b)
  {
    var na, nb := Normal(a).items, Normal(b).items;
    assert forall i :: 0 <= i < |a.items| ==> na[i] == Normal(a.items[i]) && nb[i] == Normal(b.items[i]);
    if Same(a, b) {
      assert na == nb;
    }
    if Normal(a) == Normal(b) {
      forall i | 0 <= i < |a.items| ensures Same(a.items[i], b.items[i]) {
        assert na[i] == nb[i];
      }
    }
  }

  lemma ObjectsDecided(a: seq<Member>, b: seq<Member>)
    requires DistinctNames(a) && DistinctNames(b)
    requires forall i, j :: 0 <= i < |a| && 0 <= j < |b| ==>
      (Normal(a[i].value) == Normal(b[j].value) <==> Same(a[i].value, b[j].value))
    ensures Normal(JObject(a)) == Normal(JObject(b)) <==> Same(JObject(a), JObject(b))
  {
    NormalObject(a);
    NormalObject(b);
    if Same(JObject(a), JObject(b)) {
      MatchedMembers(a, b);
      SameMembers(NormalMembers(a), NormalMembers(b));
      NameOrder();
      SortIgnoresOrder(NormalMembers(a), NormalMembers(b), MemberLe);
    }
    if Normal(JObject(a)) == Normal(JObject(b)) {
      EqualMembers(a, b);
    }
  }

  lemma MatchedMembers(a: seq<Member>, b: seq<Member>)
    requires Same(JObject(a), JObject(b))
    requires forall i, j :: 0 <= i < |a| && 0 <= j < |b| ==>
      (Normal(a[i].value) == Normal(b[j].value) <==> Same(a[i].value, b[j].value))
    ensures forall m <- NormalMembers(a) :: m in NormalMembers(b)
  {
    forall m | m in NormalMembers(a)
      ensures m in NormalMembers(b)
    {
      var i :| 0 <= i < |a| && NormalMembers(a)[i] == m;
      var j :| Matching(a[i], b, j) && Same(a[i].value, b[j].value);
      assert NormalMembers(b)[j] == m;
    }
  }

  lemma EqualMembers(a: seq<Member>, b: seq<Member>)
    requires multiset(NormalMembers(a)) == multiset(NormalMembers(b))
    requires forall i, j :: 0 <= i < |a| && 0 <= j < |b| ==>
      (Normal(a[i].value) == Normal(b[j].value) <==> Same(a[i].value, b[j].value))
    ensures Same(JObject(a), JObject(b))
  {
    assert |multiset(NormalMembers(a))| == |a| && |multiset(NormalMembers(b))| == |b|;
    forall i | 0 <= i < |a|
      ensures exists j :: Matching(a[i], b, j) && Same(a[i].value, b[j].value)
    {
      var m := NormalMembers(a)[i];
      assert m in multiset(NormalMembers(a)) && m in multiset(NormalMembers(b));
      var j :| 0 <= j < |b| && NormalMembers(b)[j] == m;
      assert Matching(a[i], b, j) && Same(a[i].value, b[j].value);
    }
  }

  /* ---------- Main results ---------- */

  /** Strict parsing undoes canonical printing: the value comes back with its members in name order. */
  lemma ParseUndoesCanonical(v: Json)
    requires Dictionary(v) && NoFloats(v)
    ensures StrictParse(Canonical(v)) == Some(Normal(v))
    ensures Same(v, Normal(v))
    ensures Canonical(Normal(v)) == Canonical(v)
  {
    NormalKeeps(v);
    NormalTwice(v);
    NormalDecides(v, Normal(v));
    ParsePrint(Normal(v), "");
    assert Canonical(v) + "" == Canonical(v);
    PrintFirst(Normal(v));
    NoSpace(Canonical(v));
  }

  /** Equal canonical text means equal values up to the order of members, and the other way round. */
  lemma SameTextSameValue(a: Json, b: Json)
    requires Dictionary(a) && NoFloats(a) && Dictionary(b) && NoFloats(b)
    ensures Canonical(a) == Canonical(b) <==> Same(a, b)
  {
    NormalDecides(a, b);
    ParseUndoesCanonical(a);
    ParseUndoesCanonical(b);
  }

  /** No text with a repeated name parses, at any depth: whatever parses is a dictionary. */
  lemma RepeatedNamesNeverParse(text: string)
    ensures StrictParse(text).Some? ==> Dictionary(StrictParse(text).value)
  {
    ValuesAreDictionaries(SkipSpace(text));
  }

  lemma {:induction false} ValuesAreDictionaries(s: string)
    ensures ParseValue(s).Some? ==> Dictionary(ParseValue(s).value.0)
    decreases |s|, 0
  {
    if s != "" && s[0] == '[' {
      ItemsAreDictionaries(SkipSpace(s[1..]));
    } else if s != "" && s[0] == '{' {
      MembersAreDictionaries(SkipSpace(s[1..]));
    }
    ParsedShape(s);
  }

  lemma ParsedShape(s: string)
    requires s != "" && s[0] == '[' && ParseItems(SkipSpace(s[1..])).Some? ==>
      forall v <- ParseItems(SkipSpace(s[1..])).value.0 :: Dictionary(v)
    requires s != "" && s[0] == '{' && ParseMembers(SkipSpace(s[1..])).Some? ==>
      forall m <- ParseMembers(SkipSpace(s[1..])).value.0 :: Dictionary(m.value)
    ensures ParseValue(s).Some? ==> Dictionary(ParseValue(s).value.0)
  {
    hide ParseItems, ParseMembers, SkipSpace;
  }

  lemma {:induction false} ItemsAreDictionaries(s: string)
    ensures ParseItems(s).Some? ==> forall v <- ParseItems(s).value.0 :: Dictionary(v)
    decreases |s|, 1
  {
    hide ParseValue, Dictionary;
    ValuesAreDictionaries(s);
    var first := ParseValue(s);
    if first.Some? {
      var rest := SkipSpace(first.value.1);
      if rest != "" && rest[0] == ',' {
        ItemsAreDictionaries(SkipSpace(rest[1..]));
      }
    }
  }

  lemma {:induction false} MembersAreDictionaries(s: string)
    ensures ParseMembers(s).Some? ==> forall m <- ParseMembers(s).value.0 :: Dictionary(m.value)
    decreases |s|, 1
  {
    hide ParseValue, Dictionary;
    if ParseMembers(s).Some? {
      var name := JsonStrings.ReadChars(s[1..]);
      var colon := SkipSpace(name.value.1);
      var valueText := SkipSpace(colon[1..]);
      ValuesAreDictionaries(valueText);
      var rest := SkipSpace(ParseValue(valueText).value.1);
      if rest[0] == ',' {
        MembersAreDictionaries(SkipSpace(rest[1..]));
      }
    }
  }
}
