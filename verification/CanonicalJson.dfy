/** Canonical JSON (crypto/canonical.py): compact text with sorted names, and the strict parser that reads it. */
module CanonicalJson {
  import opened Domain
  import opened Ordering
  import opened JsonStrings

  /** A parsed value. Members keep the order in which the dictionary holds them; a float is its lexeme. */
  datatype Json =
    | JNull
    | JBool(flag: bool)
    | JInt(n: int)
    | JFloat(lexeme: string)
    | JString(text: string)
    | JArray(items: seq<Json>)
    | JObject(members: seq<Member>)

  datatype Member = Member(name: string, value: Json)

  /* ---------- Which values are dictionaries and have no floats ---------- */

  predicate DistinctNames(members: seq<Member>) {
    forall i, j :: 0 <= i < j < |members| ==> members[i].name != members[j].name
  }

  /** Every object is a dictionary: no name twice, at any depth. */
  predicate Dictionary(v: Json) {
    match v
    case JArray(items) => forall i :: 0 <= i < |items| ==> Dictionary(items[i])
    case JObject(members) => DistinctNames(members) && forall i :: 0 <= i < |members| ==> Dictionary(members[i].value)
    case _ => true
  }

  predicate NoFloats(v: Json) {
    match v
    case JFloat(_) => false
    case JArray(items) => forall i :: 0 <= i < |items| ==> NoFloats(items[i])
    case JObject(members) => forall i :: 0 <= i < |members| ==> NoFloats(members[i].value)
    case _ => true
  }

  /* ---------- Member order ---------- */

  predicate MemberLe(a: Member, b: Member) {
    StringLe(a.name, b.name)
  }

  /** The value with the members of every object in name order. */
  function Normal(v: Json): Json {
    match v
    case JArray(items) => JArray(seq(|items|, i requires 0 <= i < |items| => Normal(items[i])))
    case JObject(members) =>
      JObject(Sort(seq(|members|, i requires 0 <= i < |members| => Member(members[i].name, Normal(members[i].value))), MemberLe))
    case _ => v
  }

  /** Equal up to the order of members. */
  ghost predicate Same(a: Json, b: Json)
    decreases a
  {
    match a
    case JArray(items) => b.JArray? && |items| == |b.items| && forall i :: 0 <= i < |items| ==> Same(items[i], b.items[i])
    case JObject(members) =>
      && b.JObject? && |members| == |b.members|
      && forall i :: 0 <= i < |members| ==> exists j :: Matching(members[i], b.members, j) && Same(members[i].value, b.members[j].value)
    case _ => a == b
  }

  predicate Matching(m: Member, members: seq<Member>, j: int) {
    0 <= j < |members| && members[j].name == m.name
  }

  /* ---------- Printing ---------- */

  function DigitChar(n: nat): char
    requires n < 10
  {
    "0123456789"[n]
  }

  function Digits(n: nat): (s: string)
    ensures s != ""
  {
    if n < 10 then [DigitChar(n)] else Digits(n / 10) + [DigitChar(n % 10)]
  }

  function Decimal(n: int): string {
    if n < 0 then "-" + Digits(-n) else Digits(n)
  }

  function Print(v: Json): string
    decreases v
  {
    match v
    case JNull => "null"
    case JBool(b) => if b then "true" else "false"
    case JInt(n) => Decimal(n)
    case JFloat(lexeme) => lexeme
    case JString(t) => "\"" + Escaped(t) + "\""
    case JArray(items) => if items == [] then "[]" else "[" + PrintItems(items)
    case JObject(members) => if members == [] then "{}" else "{" + PrintMembers(members)
  }

  function PrintItems(items: seq<Json>): string
    requires items != []
    decreases items
  {
    Print(items[0]) + if |items| == 1 then "]" else "," + PrintItems(items[1..])
  }

  function PrintMembers(members: seq<Member>): string
    requires members != []
    decreases members
  {
    "\"" + Escaped(members[0].name) + "\"" + ":" + Print(members[0].value)
    + if |members| == 1 then "}" else "," + PrintMembers(members[1..])
  }

  function Canonical(v: Json): string {
    Print(Normal(v))
  }

  /* ---------- Strict parsing ---------- */

  predicate IsDigit(c: char) {
    '0' <= c <= '9'
  }

  predicate IsSpace(c: char) {
    c == ' ' || c == '\t' || c == '\n' || c == '\r'
  }

  function SkipSpace(s: string): (r: string)
    ensures |r| <= |s|
  {
    if s != "" && IsSpace(s[0]) then SkipSpace(s[1..]) else s
  }

  /** The leading digits, and what follows them. */
  function TakeDigits(s: string): (r: (string, string))
    ensures |r.0| + |r.1| == |s|
  {
    if s != "" && IsDigit(s[0]) then
      var t := TakeDigits(s[1..]);
      ([s[0]] + t.0, t.1)
    else ("", s)
  }

  function ValueOf(digits: string): nat
    requires forall c <- digits :: IsDigit(c)
  {
    if digits == "" then 0
    else
      assert IsDigit(digits[|digits| - 1]);
      ValueOf(digits[..|digits| - 1]) * 10 + (digits[|digits| - 1] as int - '0' as int)
  }

  lemma {:induction false} TakenDigits(s: string)
    ensures forall c <- TakeDigits(s).0 :: IsDigit(c)
    ensures TakeDigits(s).0 + TakeDigits(s).1 == s
    ensures TakeDigits(s).1 != "" ==> !IsDigit(TakeDigits(s).1[0])
  {
    if s != "" && IsDigit(s[0]) {
      TakenDigits(s[1..]);
    }
  }

  /** The fraction and the exponent of a number, if they are there. */
  function FloatPart(s: string): (r: (string, string))
    ensures |r.0| + |r.1| == |s|
  {
    var fraction := if |s| >= 2 && s[0] == '.' && IsDigit(s[1]) then 1 + |TakeDigits(s[1..]).0| else 0;
    var rest := s[fraction..];
    var sign := if |rest| >= 2 && (rest[0] == 'e' || rest[0] == 'E') && (rest[1] == '+' || rest[1] == '-') then 2
                else if |rest| >= 1 && (rest[0] == 'e' || rest[0] == 'E') then 1 else 0;
    var exponent := if sign > 0 && sign < |rest| && IsDigit(rest[sign]) then sign + |TakeDigits(rest[sign..]).0| else 0;
    (s[..fraction + exponent], s[fraction + exponent..])
  }

  /** A number without leading zeros; a fraction or an exponent makes it a float. */
  function ParseUnsigned(negative: bool, s: string): (r: Option<(Json, string)>)
    ensures r.Some? ==> |r.value.1| < |s|
  {
    if s == "" || !IsDigit(s[0]) then None
    else
      var digits := if s[0] == '0' then "0" else TakeDigits(s).0;
      TakenDigits(s);
      var rest := s[|digits|..];
      var float := FloatPart(rest);
      assert forall c <- digits :: IsDigit(c);
      if float.0 == "" then Some((JInt(if negative then -(ValueOf(digits) as int) else ValueOf(digits)), rest))
      else Some((JFloat((if negative then "-" else "") + digits + float.0), float.1))
  }

  function ParseNumber(s: string): (r: Option<(Json, string)>)
    ensures r.Some? ==> |r.value.1| < |s|
  {
    if s != "" && s[0] == '-' then ParseUnsigned(true, s[1..]) else ParseUnsigned(false, s)
  }

  /** A value, and the text after it. */
  function ParseValue(s: string): (r: Option<(Json, string)>)
    ensures r.Some? ==> |r.value.1| < |s|
    decreases |s|, 0
  {
    if s == "" then None
    else if "null" <= s then Some((JNull, s[4..]))
    else if "true" <= s then Some((JBool(true), s[4..]))
    else if "false" <= s then Some((JBool(false), s[5..]))
    else if s[0] == '\"' then
      var t := ReadChars(s[1..]);
      if t.None? then None else Some((JString(t.value.0), t.value.1))
    else if s[0] == '[' then
      var inner := SkipSpace(s[1..]);
      if inner != "" && inner[0] == ']' then Some((JArray([]), inner[1..]))
      else
        var t := ParseItems(inner);
        if t.None? then None else Some((JArray(t.value.0), t.value.1))
    else if s[0] == '{' then
      var inner := SkipSpace(s[1..]);
      if inner != "" && inner[0] == '}' then Some((JObject([]), inner[1..]))
      else
        var t := ParseMembers(inner);
        if t.None? || !DistinctNames(t.value.0) then None else Some((JObject(t.value.0), t.value.1))
    else ParseNumber(s)
  }

  /** One or more items and the closing bracket. */
  function ParseItems(s: string): (r: Option<(seq<Json>, string)>)
    ensures r.Some? ==> |r.value.1| < |s| && r.value.0 != []
    decreases |s|, 1
  {
    var first := ParseValue(s);
    if first.None? then None
    else
      var rest := SkipSpace(first.value.1);
      if rest == "" then None
      else if rest[0] == ']' then Some(([first.value.0], rest[1..]))
      else if rest[0] != ',' then None
      else
        var more := ParseItems(SkipSpace(rest[1..]));
        if more.None? then None else Some(([first.value.0] + more.value.0, more.value.1))
  }

  /** One or more members and the closing brace. */
  function ParseMembers(s: string): (r: Option<(seq<Member>, string)>)
    ensures r.Some? ==> |r.value.1| < |s| && r.value.0 != []
    decreases |s|, 1
  {
    if s == "" || s[0] != '\"' then None
    else
      var name := ReadChars(s[1..]);
      if name.None? then None
      else
        var colon := SkipSpace(name.value.1);
        if colon == "" || colon[0] != ':' then None
        else
          var value := ParseValue(SkipSpace(colon[1..]));
          if value.None? then None
          else
            var rest := SkipSpace(value.value.1);
            if rest == "" then None
            else if rest[0] == '}' then Some(([Member(name.value.0, value.value.0)], rest[1..]))
            else if rest[0] != ',' then None
            else
              var more := ParseMembers(SkipSpace(rest[1..]));
              if more.None? then None else Some(([Member(name.value.0, value.value.0)] + more.value.0, more.value.1))
  }

  function StrictParse(text: string): Option<Json> {
    var r := ParseValue(SkipSpace(text));
    if r.None? || SkipSpace(r.value.1) != "" then None else Some(r.value.0)
  }

  /** The hook that builds each dictionary and refuses a name seen before. */
  method ObjectWithoutDuplicates(pairs: seq<Member>) returns (ok: bool, result: map<string, Json>)
    ensures ok <==> DistinctNames(pairs)
    ensures ok ==> forall k :: k in result ==> exists j :: 0 <= j < |pairs| && pairs[j].name == k
    ensures ok ==> forall j :: 0 <= j < |pairs| ==> pairs[j].name in result && result[pairs[j].name] == pairs[j].value
  {
    result := map[];
    for i := 0 to |pairs|
      invariant forall j, k :: 0 <= j < k < i ==> pairs[j].name != pairs[k].name
      invariant forall k :: k in result ==> exists j :: 0 <= j < i && pairs[j].name == k
      invariant forall j :: 0 <= j < i ==> pairs[j].name in result && result[pairs[j].name] == pairs[j].value
    {
      if pairs[i].name in result {
        return false, result;
      }
      result := result[pairs[i].name := pairs[i].value];
    }
    ok := true;
  }

  /* ---------- Parsing undoes printing ---------- */

  /** Text after which a printed number ends. */
  predicate Ends(rest: string) {
    rest == "" || !(IsDigit(rest[0]) || rest[0] == '.' || rest[0] == 'e' || rest[0] == 'E')
  }

  lemma {:induction false} DigitsRead(n: nat)
    ensures forall c <- Digits(n) :: IsDigit(c)
    ensures ValueOf(Digits(n)) == n
    ensures Digits(n)[0] == '0' ==> n == 0
  {
    if n >= 10 {
      DigitsRead(n / 10);
      var s := Digits(n);
      assert s[..|s| - 1] == Digits(n / 10);
      assert s[0] == Digits(n / 10)[0];
    } else {
      assert Digits(n)[..0] == "";
    }
  }

  lemma {:induction false} TakeAll(digits: string, rest: string)
    requires forall c <- digits :: IsDigit(c)
    requires rest == "" || !IsDigit(rest[0])
    ensures TakeDigits(digits + rest) == (digits, rest)
  {
    if digits == "" {
      assert digits + rest == rest;
    } else {
      assert digits[0] in digits;
      assert (digits + rest)[1..] == digits[1..] + rest;
      TakeAll(digits[1..], rest);
      assert digits == [digits[0]] + digits[1..];
    }
  }

  lemma ParseDigits(negative: bool, digits: string, rest: string)
    requires digits != "" && (forall c <- digits :: IsDigit(c)) && (digits[0] == '0' ==> digits == "0") && Ends(rest)
    ensures ParseUnsigned(negative, digits + rest)
         == Some((JInt(if negative then -(ValueOf(digits) as int) else ValueOf(digits)), rest))
  {
    hide ValueOf, TakeDigits;
    assert IsDigit(digits[0]);
    assert (digits + rest)[|digits|..] == rest;
    TakeAll(digits, rest);
    NoFloatPart(rest);
  }

  lemma NoFloatPart(rest: string)
    requires Ends(rest)
    ensures FloatPart(rest).0 == ""
  {
    assert rest[0..] == rest;
  }

  lemma ParseDecimal(n: int, rest: string)
    requires Ends(rest)
    ensures ParseNumber(Decimal(n) + rest) == Some((JInt(n), rest))
  {
    hide ParseUnsigned, ValueOf, Digits;
    var m: nat := if n < 0 then -n else n;
    DigitsRead(m);
    if Digits(m)[0] == '0' {
      ZeroDigits();
    }
    ParseDigits(n < 0, Digits(m), rest);
    if n < 0 {
      assert (Decimal(n) + rest)[1..] == Digits(m) + rest;
    } else {
      assert IsDigit(Digits(m)[0]);
    }
  }

  lemma ZeroDigits()
    ensures Digits(0) == "0"
  {
  }

  /** The first character decides which kind of value follows. */
  lemma PrintFirst(v: Json)
    requires NoFloats(v)
    ensures Print(v) != "" && !IsSpace(Print(v)[0]) && Print(v)[0] != ']' && Print(v)[0] != '}'
    ensures v.JInt? ==> IsDigit(Print(v)[0]) || Print(v)[0] == '-'
  {
    if v.JInt? {
      var m: nat := if v.n < 0 then -v.n else v.n;
      DigitsRead(m);
      assert Digits(m)[0] in Digits(m);
    }
  }

  lemma NoSpace(s: string)
    requires s != "" && !IsSpace(s[0])
    ensures SkipSpace(s) == s
  {
  }

  /** Reading back what was printed gives the same value and leaves the rest, for dictionaries without floats. */
  lemma {:induction false} ParsePrint(v: Json, rest: string)
    requires Dictionary(v) && NoFloats(v) && Ends(rest)
    ensures ParseValue(Print(v) + rest) == Some((v, rest))
    decreases v, 1
  {
    hide ParseValue, ParseNumber, ParseItems, ParseMembers, ReadChars, SkipSpace, Digits;
    match v
    case JNull => ParseWord(v, rest);
    case JBool(_) => ParseWord(v, rest);
    case JInt(n) =>
      PrintFirst(v);
      ParseDecimal(n, rest);
      ParseFallsToNumber(Print(v) + rest);
    case JString(t) =>
      var s := Print(v) + rest;
      assert s[0] == '\"' && s[1..] == Escaped(t) + "\"" + rest;
      ReadUndoesEscape(t, rest);
      ParseString(s);
    case JArray(items) =>
      if items == [] {
        ParseEmpty(v, rest);
      } else {
        ParseItemsPrint(items, rest);
        ParsePrintedArray(items, rest);
      }
    case JObject(members) =>
      if members == [] {
        ParseEmpty(v, rest);
      } else {
        ParseMembersPrint(members, rest);
        ParsePrintedObject(members, rest);
      }
  }

  lemma ParsePrintedArray(items: seq<Json>, rest: string)
    requires items != [] && NoFloats(items[0]) && ParseItems(PrintItems(items) + rest) == Some((items, rest))
    ensures ParseValue(Print(JArray(items)) + rest) == Some((JArray(items), rest))
  {
    hide ParseValue, ParseItems;
    PrintFirst(items[0]);
    ParseArray(PrintItems(items) + rest);
    assert Print(JArray(items)) + rest == "[" + (PrintItems(items) + rest);
  }

  lemma ParsePrintedObject(members: seq<Member>, rest: string)
    requires members != [] && DistinctNames(members) && ParseMembers(PrintMembers(members) + rest) == Some((members, rest))
    ensures ParseValue(Print(JObject(members)) + rest) == Some((JObject(members), rest))
  {
    hide ParseValue, ParseMembers, DistinctNames;
    ParseObject(PrintMembers(members) + rest);
    assert Print(JObject(members)) + rest == "{" + (PrintMembers(members) + rest);
  }

  lemma ParseWord(v: Json, rest: string)
    requires v.JNull? || v.JBool?
    ensures ParseValue(Print(v) + rest) == Some((v, rest))
  {
    var s := Print(v) + rest;
    assert s[0] == Print(v)[0];
    assert s[|Print(v)|..] == rest;
    assert Print(v) <= s;
  }

  lemma ParseFallsToNumber(s: string)
    requires s != "" && (IsDigit(s[0]) || s[0] == '-')
    ensures ParseValue(s) == ParseNumber(s)
  {
    hide ParseNumber;
  }

  lemma ParseString(s: string)
    requires s != "" && s[0] == '\"' && ReadChars(s[1..]).Some?
    ensures ParseValue(s) == Some((JString(ReadChars(s[1..]).value.0), ReadChars(s[1..]).value.1))
  {
    hide ReadChars;
  }

  lemma ParseEmpty(v: Json, rest: string)
    requires v == JArray([]) || v == JObject([])
    ensures ParseValue(Print(v) + rest) == Some((v, rest))
  {
    hide ParseItems, ParseMembers, ParseNumber;
    var s := Print(v) + rest;
    assert s[0] == Print(v)[0] && s[1..][0] == Print(v)[1] && s[1..][1..] == rest;
    NoSpace(s[1..]);
  }

  lemma ParseArray(inner: string)
    requires inner != "" && !IsSpace(inner[0]) && inner[0] != ']' && ParseItems(inner).Some?
    ensures ParseValue("[" + inner) == Some((JArray(ParseItems(inner).value.0), ParseItems(inner).value.1))
  {
    hide ParseItems;
    var s := "[" + inner;
    assert s[0] == '[' && s[1..] == inner;
    NoSpace(inner);
  }

  lemma ParseObject(inner: string)
    requires inner != "" && inner[0] == '\"' && ParseMembers(inner).Some? && DistinctNames(ParseMembers(inner).value.0)
    ensures ParseValue("{" + inner) == Some((JObject(ParseMembers(inner).value.0), ParseMembers(inner).value.1))
  {
    hide ParseMembers, DistinctNames;
    var s := "{" + inner;
    assert s[0] == '{' && s[1..] == inner;
    NoSpace(inner);
  }

  lemma {:induction false} ParseItemsPrint(items: seq<Json>, rest: string)
    requires items != [] && forall i :: 0 <= i < |items| ==> Dictionary(items[i]) && NoFloats(items[i])
    ensures ParseItems(PrintItems(items) + rest) == Some((items, rest))
    decreases items, 0
  {
    hide ParseValue, ParseItems, Print;
    var tail := (if |items| == 1 then "]" else "," + PrintItems(items[1..])) + rest;
    ParsePrint(items[0], tail);
    assert PrintItems(items) + rest == Print(items[0]) + tail;
    if |items| == 1 {
      assert tail[1..] == rest;
      assert items == [items[0]];
    } else {
      ParseItemsPrint(items[1..], rest);
      PrintFirst(items[1]);
      assert tail[1..] == PrintItems(items[1..]) + rest;
      NoSpace(tail[1..]);
      assert items == [items[0]] + items[1..];
    }
    ParseItemsStep(Print(items[0]) + tail, items[0], tail);
  }

  lemma ParseItemsStep(s: string, item: Json, tail: string)
    requires ParseValue(s) == Some((item, tail)) && tail != ""
    ensures tail[0] == ']' ==> ParseItems(s) == Some(([item], tail[1..]))
    ensures tail[0] == ',' && ParseItems(SkipSpace(tail[1..])).Some? ==>
      var more := ParseItems(SkipSpace(tail[1..])).value;
      ParseItems(s) == Some(([item] + more.0, more.1))
  {
    hide ParseValue;
  }

  lemma {:induction false} ParseMembersPrint(members: seq<Member>, rest: string)
    requires members != []
    requires forall i :: 0 <= i < |members| ==> Dictionary(members[i].value) && NoFloats(members[i].value)
    ensures ParseMembers(PrintMembers(members) + rest) == Some((members, rest))
    ensures PrintMembers(members)[0] == '\"'
    decreases members, 0
  {
    hide ParseValue, ParseMembers, ReadChars, Print, Escaped;
    var m := members[0];
    var tail := (if |members| == 1 then "}" else "," + PrintMembers(members[1..])) + rest;
    ParsePrint(m.value, tail);
    PrintFirst(m.value);
    NoSpace(Print(m.value) + tail);
    var colon := ":" + (Print(m.value) + tail);
    ReadUndoesEscape(m.name, colon);
    var s := PrintMembers(members) + rest;
    assert s == "\"" + (Escaped(m.name) + "\"" + colon);
    if |members| == 1 {
      assert tail[1..] == rest;
      assert members == [m];
    } else {
      ParseMembersPrint(members[1..], rest);
      assert tail[1..] == PrintMembers(members[1..]) + rest;
      NoSpace(tail[1..]);
      assert members == [m] + members[1..];
    }
    ParseMembersStep(s, m, colon, tail);
  }

  lemma ParseMembersStep(s: string, m: Member, colon: string, tail: string)
    requires s != "" && s[0] == '\"' && ReadChars(s[1..]) == Some((m.name, colon))
    requires colon != "" && colon[0] == ':' && ParseValue(SkipSpace(colon[1..])) == Some((m.value, tail)) && tail != ""
    ensures tail[0] == '}' ==> ParseMembers(s) == Some(([m], tail[1..]))
    ensures tail[0] == ',' && ParseMembers(SkipSpace(tail[1..])).Some? ==>
      var more := ParseMembers(SkipSpace(tail[1..])).value;
      ParseMembers(s) == Some(([m] + more.0, more.1))
  {
    hide ParseValue, ReadChars;
  }
}
