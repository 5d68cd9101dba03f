/** The texts the worker's decoder accepts, written as RFC 8259 writes them: what each one says, and that the decoder
    accepts these and no others, with exactly this meaning. */
module MessageGrammar {
  import opened Option
  import opened Records
  import opened MessageFormat
  import opened StringGrammar

  // ----- Blanks and digits -----

  /** Space, tab, line feed and carriage return, in any number. */
  predicate Blank(s: string) {
    forall k :: 0 <= k < |s| ==> s[k] in {' ', '\t', '\n', '\r'}
  }

  lemma {:induction false} SkipBlank(blank: string, rest: string)
    requires Blank(blank)
    ensures Skip(blank + rest) == Skip(rest)
    decreases |blank|
  {
    if blank == [] {
      assert blank + rest == rest;
    } else {
      assert (blank + rest)[1..] == blank[1..] + rest;
      SkipBlank(blank[1..], rest);
    }
  }

  lemma {:induction false} SkipAllOnlyBlanks(s: string)
    ensures Skip(s) == [] <==> Blank(s)
    decreases |s|
  {
    if s != [] && IsBlank(s[0]) {
      SkipAllOnlyBlanks(s[1..]);
      assert forall k :: 0 < k < |s| ==> s[k] == s[1..][k - 1];
      assert Blank(s[1..]) ==> forall k :: 0 <= k < |s| ==> IsBlank(s[k]);
    }
  }

  lemma SkipStops(blank: string, c: char, rest: string)
    requires Blank(blank) && !IsBlank(c)
    ensures Skip(blank + ([c] + rest)) == [c] + rest
  {
    SkipBlank(blank, [c] + rest);
  }

  function PrintNatural(n: nat): string {
    if n < 10 then [('0' as int + n) as char] else PrintNatural(n / 10) + [('0' as int + n % 10) as char]
  }

  predicate Stops(rest: string) {
    rest == [] || !IsDigit(rest[0])
  }

  lemma {:induction false} PrintedDigits(n: nat)
    ensures var s := PrintNatural(n);
            s != [] && IsDigit(s[0]) && (n > 0 ==> s[0] != '0') && forall k :: 0 <= k < |s| ==> IsDigit(s[k])
  {
    if n >= 10 {
      PrintedDigits(n / 10);
    }
  }

  lemma {:induction false} ReadOneMoreDigit(digits: string, c: char, rest: string, sofar: nat)
    requires (forall k :: 0 <= k < |digits| ==> IsDigit(digits[k])) && IsDigit(c) && Stops(rest)
    ensures ReadDigits(digits + [c] + rest, sofar) == (10 * ReadDigits(digits, sofar).0 + (c - '0') as nat, rest)
    decreases |digits|
  {
    var s := digits + [c] + rest;
    if digits == [] {
      assert s[1..] == rest;
    } else {
      assert s[1..] == digits[1..] + [c] + rest;
      ReadOneMoreDigit(digits[1..], c, rest, 10 * sofar + (digits[0] - '0') as nat);
    }
  }

  lemma {:induction false} ReadPrintedDigits(n: nat, rest: string)
    requires n > 0 && Stops(rest)
    ensures ReadDigits(PrintNatural(n) + rest, 0) == (n, rest)
    decreases n
  {
    var c := ('0' as int + n % 10) as char;
    if n < 10 {
      ReadOneMoreDigit([], c, rest, 0);
      assert [] + [c] + rest == PrintNatural(n) + rest;
    } else {
      var front := PrintNatural(n / 10);
      PrintedDigits(n / 10);
      ReadPrintedDigits(n / 10, []);
      assert front + [] == front;
      ReadOneMoreDigit(front, c, rest, 0);
      assert front + [c] + rest == PrintNatural(n) + rest;
    }
  }

  // ----- Values -----

  /** A value as it is written. */
  datatype Literal = TextOf(glyphs: seq<Glyph>) | NumberOf(negative: bool, n: nat) | NullOf

  predicate IsLiteral(v: Literal) {
    v.TextOf? ==> AreGlyphs(v.glyphs)
  }

  /** The value, and what follows. */
  function LiteralText(v: Literal, tail: string): string
    requires IsLiteral(v)
  {
    match v
    case TextOf(glyphs) => "\"" + Quoted(glyphs, tail)
    case NumberOf(negative, n) => if negative then "-" + (PrintNatural(n) + tail) else PrintNatural(n) + tail
    case NullOf => "null" + tail
  }

  function Meaning(v: Literal): Value
    requires IsLiteral(v)
  {
    match v
    case TextOf(glyphs) => Text(Spelled(glyphs))
    case NumberOf(negative, n) => Number(if negative then -(n as int) else n)
    case NullOf => Null
  }

  lemma {:induction false} DigitsWereWritten(s: string, sofar: nat)
    requires sofar > 0
    ensures var (n, rest) := ReadDigits(s, sofar); PrintNatural(sofar) + s == PrintNatural(n) + rest
    decreases |s|
  {
    if s != [] && IsDigit(s[0]) {
      var next := 10 * sofar + (s[0] - '0') as nat;
      DigitsWereWritten(s[1..], next);
      assert PrintNatural(next) == PrintNatural(sofar) + [s[0]];
      assert PrintNatural(sofar) + s == PrintNatural(next) + s[1..];
    }
  }

  /** Whatever is read as a number was one, without leading zeros. */
  lemma NaturalWasWritten(s: string)
    requires ReadNatural(s).Some?
    ensures var (n, rest) := ReadNatural(s).value; s == PrintNatural(n) + rest
  {
    assert s == [s[0]] + s[1..];
    if s[0] != '0' {
      var d := (s[0] - '0') as nat;
      DigitsWereWritten(s[1..], d);
      assert PrintNatural(d) == [s[0]];
    }
  }

  lemma NaturalReadsBack(n: nat, rest: string)
    requires Stops(rest)
    ensures ReadNatural(PrintNatural(n) + rest) == Some((n, rest))
  {
    var s := PrintNatural(n) + rest;
    PrintedDigits(n);
    if n == 0 {
      assert s == "0" + rest;
    } else {
      ReadPrintedDigits(n, rest);
      assert s[0] == PrintNatural(n)[0];
    }
  }

  /** A value is read as what it means, if no digit follows. */
  lemma ValueReadsBack(v: Literal, tail: string)
    requires IsLiteral(v) && Stops(tail)
    ensures ReadValue(LiteralText(v, tail)) == Some((Meaning(v), tail))
    ensures LiteralText(v, tail) != [] && !IsBlank(LiteralText(v, tail)[0])
  {
    var s := LiteralText(v, tail);
    match v
    case TextOf(glyphs) =>
      assert s[1..] == Quoted(glyphs, tail);
      LiteralReadsBack(glyphs, tail);
    case NumberOf(negative, n) =>
      NaturalReadsBack(n, tail);
      PrintedDigits(n);
      if negative {
        assert s[1..] == PrintNatural(n) + tail;
      } else {
        assert s[0] == PrintNatural(n)[0];
        assert "null"[0] == 'n';
      }
    case NullOf => assert s[4..] == tail;
  }

  /** Whatever is read as a value was one. */
  lemma ValueWasWritten(s: string) returns (v: Literal)
    requires ReadValue(s).Some?
    ensures IsLiteral(v) && s == LiteralText(v, ReadValue(s).value.1) && ReadValue(s).value.0 == Meaning(v)
  {
    assert s == [s[0]] + s[1..];
    if s[0] == '"' {
      var glyphs := LiteralWasWritten(s[1..]);
      v := TextOf(glyphs);
    } else if s[0] == '-' {
      NaturalWasWritten(s[1..]);
      v := NumberOf(true, ReadNatural(s[1..]).value.0);
    } else if "null" <= s {
      v := NullOf;
      assert s == s[..4] + s[4..];
    } else {
      NaturalWasWritten(s);
      v := NumberOf(false, ReadNatural(s).value.0);
    }
  }

  // ----- Members -----

  /** One member of an object, with the blanks around its parts. */
  datatype Member = Member(
    before: string, name: seq<Glyph>, afterName: string, beforeValue: string, value: Literal, after: string)

  predicate IsMember(m: Member) {
    && Blank(m.before) && Blank(m.afterName) && Blank(m.beforeValue) && Blank(m.after)
    && AreGlyphs(m.name) && IsLiteral(m.value)
  }

  predicate AreMembers(ms: seq<Member>) {
    forall k :: 0 <= k < |ms| ==> IsMember(ms[k])
  }

  /** The member up to its value, and what follows that. */
  function MemberText(m: Member, tail: string): string
    requires IsMember(m)
  {
    m.before + ("\"" + Quoted(m.name, m.afterName + (":" + (m.beforeValue + LiteralText(m.value, tail)))))
  }

  /** The members with their commas, the closing brace, and what follows it. */
  function MembersText(ms: seq<Member>, tail: string): string
    requires AreMembers(ms) && ms != []
  {
    MemberText(ms[0], ms[0].after + (if |ms| == 1 then "}" + tail else "," + MembersText(ms[1..], tail)))
  }

  function PairOf(m: Member): Pair
    requires IsMember(m)
  {
    (Spelled(m.name), Meaning(m.value))
  }

  function PairsOf(ms: seq<Member>): seq<Pair>
    requires AreMembers(ms)
  {
    if ms == [] then [] else [PairOf(ms[0])] + PairsOf(ms[1..])
  }

  lemma MemberReadsBack(m: Member, tail: string)
    requires IsMember(m) && Stops(tail)
    ensures ReadPair(MemberText(m, tail)) == Some((PairOf(m), tail))
  {
    var value := LiteralText(m.value, tail);
    var colon := ":" + (m.beforeValue + value);
    var name := Quoted(m.name, m.afterName + colon);
    SkipStops(m.before, '"', name);
    assert ("\"" + name)[1..] == name;
    LiteralReadsBack(m.name, m.afterName + colon);
    SkipStops(m.afterName, ':', m.beforeValue + value);
    assert colon[1..] == m.beforeValue + value;
    SkipBlank(m.beforeValue, value);
    ValueReadsBack(m.value, tail);
  }

  /** The blanks that are skipped. */
  lemma {:induction false} SkipSplits(s: string) returns (blank: string)
    ensures Blank(blank) && s == blank + Skip(s)
    decreases |s|
  {
    blank := [];
    if s != [] && IsBlank(s[0]) {
      var more := SkipSplits(s[1..]);
      blank := [s[0]] + more;
      assert s == [s[0]] + s[1..];
    }
  }

  lemma MemberWasWritten(s: string) returns (m: Member)
    requires ReadPair(s).Some?
    ensures IsMember(m) && s == MemberText(m, ReadPair(s).value.1) && ReadPair(s).value.0 == PairOf(m) && m.after == []
  {
    var before := SkipSplits(s);
    var start := Skip(s);
    assert start == "\"" + start[1..];
    var name := LiteralWasWritten(start[1..]);
    var afterQuote := ReadText(start[1..]).value.1;
    var afterName := SkipSplits(afterQuote);
    var colon := Skip(afterQuote);
    assert colon == ":" + colon[1..];
    var beforeValue := SkipSplits(colon[1..]);
    var value := ValueWasWritten(Skip(colon[1..]));
    m := Member(before, name, afterName, beforeValue, value, []);
  }

  /** With the blanks behind it. */
  lemma FirstWasWritten(s: string) returns (m: Member)
    requires ReadPair(s).Some?
    ensures IsMember(m) && ReadPair(s).value.0 == PairOf(m)
    ensures s == MemberText(m, m.after + Skip(ReadPair(s).value.1))
  {
    var rest := ReadPair(s).value.1;
    var bare := MemberWasWritten(s);
    var after := SkipSplits(rest);
    m := bare.(after := after);
    assert MemberText(m, rest) == MemberText(bare, rest);
  }

  lemma LastReadsBack(m: Member, tail: string)
    requires IsMember(m)
    ensures ReadPairs(MemberText(m, m.after + ("}" + tail))) == Some(([PairOf(m)], tail))
  {
    BlankStops(m.after, '}', tail);
    MemberReadsBack(m, m.after + ("}" + tail));
    SkipStops(m.after, '}', tail);
    assert ("}" + tail)[1..] == tail;
  }

  lemma NextReadsBack(m: Member, more: string)
    requires IsMember(m)
    ensures ReadPairs(MemberText(m, m.after + ("," + more))) ==
            match ReadPairs(more)
            case Some((pairs, rest)) => Some(([PairOf(m)] + pairs, rest))
            case None => None
  {
    BlankStops(m.after, ',', more);
    MemberReadsBack(m, m.after + ("," + more));
    SkipStops(m.after, ',', more);
    assert ("," + more)[1..] == more;
  }

  lemma BlankStops(blank: string, c: char, rest: string)
    requires Blank(blank) && !IsDigit(c)
    ensures Stops(blank + ([c] + rest))
  {
    if blank != [] {
      assert IsBlank(blank[0]);
    }
  }

  /** The members of an object are read one by one, in order. */
  lemma {:induction false} MembersReadBack(ms: seq<Member>, tail: string)
    requires AreMembers(ms) && ms != []
    ensures ReadPairs(MembersText(ms, tail)) == Some((PairsOf(ms), tail))
    decreases |ms|
  {
    if |ms| == 1 {
      LastReadsBack(ms[0], tail);
      assert PairsOf(ms) == [PairOf(ms[0])];
    } else {
      NextReadsBack(ms[0], MembersText(ms[1..], tail));
      MembersReadBack(ms[1..], tail);
    }
  }

  lemma MembersMore(m: Member, ms: seq<Member>, tail: string)
    requires IsMember(m) && AreMembers(ms) && ms != []
    ensures AreMembers([m] + ms) && PairsOf([m] + ms) == [PairOf(m)] + PairsOf(ms)
    ensures MembersText([m] + ms, tail) == MemberText(m, m.after + ("," + MembersText(ms, tail)))
  {
    assert ([m] + ms)[1..] == ms;
  }

  /** Whatever is read as the members of an object was written so. */
  lemma {:induction false} MembersWereWritten(s: string) returns (ms: seq<Member>)
    requires ReadPairs(s).Some?
    ensures AreMembers(ms) && ms != []
    ensures s == MembersText(ms, ReadPairs(s).value.1) && ReadPairs(s).value.0 == PairsOf(ms)
    decreases |s|
  {
    var first := FirstWasWritten(s);
    var next := Skip(ReadPair(s).value.1);
    assert next == [next[0]] + next[1..];
    if next[0] == '}' {
      ms := [first];
      assert PairsOf(ms) == [PairOf(first)];
    } else {
      var more := MembersWereWritten(next[1..]);
      ms := [first] + more;
      MembersMore(first, more, ReadPairs(s).value.1);
    }
  }

  // ----- What the members say -----

  /** The letter stands for c in a name: c itself, its upper case, or one of two letters that Unicode folds onto it. */
  predicate StandsFor(c: char, letter: char) {
    || c == letter
    || ('a' <= letter <= 'z' && c as int == letter as int - 32)
    || (letter == 's' && c == '\U{017F}')
    || (letter == 'k' && c == '\U{212A}')
  }

  /** The name, but for case. */
  predicate Names(name: string, field: string) {
    |name| == |field| && forall k :: 0 <= k < |name| ==> StandsFor(name[k], field[k])
  }

  /** A field's name as the contract has it: small letters and underscores. */
  predicate IsFieldName(field: string) {
    forall k :: 0 <= k < |field| ==> 'a' <= field[k] <= 'z' || field[k] == '_'
  }

  lemma NamesFirst(name: string, field: string)
    requires name != [] && field != []
    ensures Names(name, field) <==> StandsFor(name[0], field[0]) && Names(name[1..], field[1..])
  {
    if Names(name[1..], field[1..]) && StandsFor(name[0], field[0]) {
      forall k | 0 <= k < |name| ensures StandsFor(name[k], field[k]) {
        assert k > 0 ==> StandsFor(name[1..][k - 1], field[1..][k - 1]);
      }
    }
    if Names(name, field) {
      forall k | 0 <= k < |name[1..]| ensures StandsFor(name[1..][k], field[1..][k]) {
        assert StandsFor(name[k + 1], field[k + 1]);
      }
    }
  }

  lemma FoldStandsFor(c: char, letter: char)
    requires 'a' <= letter <= 'z' || letter == '_'
    ensures FoldChar(c) == letter <==> StandsFor(c, letter)
  {
  }

  lemma {:induction false} FoldNames(name: string, field: string)
    requires IsFieldName(field)
    ensures Fold(name) == field <==> Names(name, field)
    decreases |name|
  {
    if name != [] && field != [] {
      FoldNames(name[1..], field[1..]);
      NamesFirst(name, field);
      FoldStandsFor(name[0], field[0]);
      assert field == [field[0]] + field[1..];
    }
  }

  /** The four fields of the message contract, by name. */
  lemma FieldsByName(name: string)
    ensures FieldNamed(name) == Some(KindField) <==> Names(name, "type")
    ensures FieldNamed(name) == Some(VersionField) <==> Names(name, "version")
    ensures FieldNamed(name) == Some(JobField) <==> Names(name, "job_id")
    ensures FieldNamed(name) == Some(ItemField) <==> Names(name, "work_item_id")
  {
    FoldNames(name, "type");
    FoldNames(name, "version");
    FoldNames(name, "job_id");
    FoldNames(name, "work_item_id");
    assert |"type"| == 4 && |"version"| == 7 && |"job_id"| == 6 && |"work_item_id"| == 12;
  }

  predicate IsCalled(m: Member, field: string)
    requires IsMember(m)
  {
    Names(Spelled(m.name), field)
  }

  predicate IsInteger(v: Literal) {
    v.NumberOf? && -0x8000_0000_0000_0000 <= (if v.negative then -(v.n as int) else v.n) <= 0x7FFF_FFFF_FFFF_FFFF
  }

  /** The member may stand in a message: its name is one of the four, and its value of the field's type, or null. */
  predicate Fits(m: Member)
    requires IsMember(m)
  {
    || (IsCalled(m, "type") && (m.value.TextOf? || m.value.NullOf?))
    || ((IsCalled(m, "version") || IsCalled(m, "job_id") || IsCalled(m, "work_item_id"))
        && (IsInteger(m.value) || m.value.NullOf?))
  }

  /** The text the member gives for the field. */
  function TextFrom(m: Member, field: string, otherwise: string): string
    requires IsMember(m)
  {
    if IsCalled(m, field) && m.value.TextOf? then Spelled(m.value.glyphs) else otherwise
  }

  /** The number the member gives for the field. */
  function NumberFrom(m: Member, field: string, otherwise: int): int
    requires IsMember(m)
  {
    if !IsCalled(m, field) || !m.value.NumberOf? then otherwise
    else if m.value.negative then -(m.value.n as int) else m.value.n
  }

  /** The last text given for the field. */
  function TextFor(ms: seq<Member>, field: string, otherwise: string): string
    requires AreMembers(ms)
  {
    if ms == [] then otherwise else TextFor(ms[1..], field, TextFrom(ms[0], field, otherwise))
  }

  /** The last number given for the field. */
  function NumberFor(ms: seq<Member>, field: string, otherwise: int): int
    requires AreMembers(ms)
  {
    if ms == [] then otherwise else NumberFor(ms[1..], field, NumberFrom(ms[0], field, otherwise))
  }

  /** The message with one member's field set. */
  function UpdatedBy(start: WorkerMessage, m: Member): WorkerMessage
    requires IsMember(m)
  {
    WorkerMessage(TextFrom(m, "type", start.kind), NumberFrom(m, "version", start.version),
                  NumberFrom(m, "job_id", start.job), NumberFrom(m, "work_item_id", start.item))
  }

  /** The message with all members' fields set. */
  function Updated(start: WorkerMessage, ms: seq<Member>): WorkerMessage
    requires AreMembers(ms)
  {
    WorkerMessage(TextFor(ms, "type", start.kind), NumberFor(ms, "version", start.version),
                  NumberFor(ms, "job_id", start.job), NumberFor(ms, "work_item_id", start.item))
  }

  lemma UpdatedFirst(start: WorkerMessage, ms: seq<Member>)
    requires AreMembers(ms) && ms != []
    ensures Updated(start, ms) == Updated(UpdatedBy(start, ms[0]), ms[1..])
  {
  }

  lemma FitsIfAssigned(start: WorkerMessage, m: Member)
    requires IsMember(m)
    ensures AssignOne(start, PairOf(m)) == if Fits(m) then Some(UpdatedBy(start, m)) else None
  {
    FieldsByName(Spelled(m.name));
  }

  predicate AllFit(ms: seq<Member>)
    requires AreMembers(ms)
  {
    forall k :: 0 <= k < |ms| ==> Fits(ms[k])
  }

  lemma AllFitFirst(ms: seq<Member>)
    requires AreMembers(ms) && ms != []
    ensures AllFit(ms) <==> Fits(ms[0]) && AllFit(ms[1..])
  {
    assert forall k :: 0 < k < |ms| ==> ms[k] == ms[1..][k - 1];
    assert forall k :: 0 <= k < |ms[1..]| ==> ms[1..][k] == ms[k + 1];
  }

  /** The members set the fields they name, the last one winning; one that does not fit spoils the message. */
  lemma {:induction false} MembersAssign(start: WorkerMessage, ms: seq<Member>)
    requires AreMembers(ms)
    ensures Assign(start, PairsOf(ms)) ==
            if AllFit(ms) then Some(Updated(start, ms)) else None
    decreases |ms|
  {
    if ms != [] {
      FitsIfAssigned(start, ms[0]);
      AllFitFirst(ms);
      assert PairsOf(ms)[0] == PairOf(ms[0]) && PairsOf(ms)[1..] == PairsOf(ms[1..]);
      UpdatedFirst(start, ms);
      if Fits(ms[0]) {
        MembersAssign(UpdatedBy(start, ms[0]), ms[1..]);
      }
    }
  }

  // ----- Payloads -----

  /** What can be decoded at all: null, and an object with members or without. */
  datatype Payload = NullPayload | Empty(inside: string) | Object(members: seq<Member>)

  predicate IsPayload(p: Payload) {
    match p
    case NullPayload => true
    case Empty(inside) => Blank(inside)
    case Object(members) => AreMembers(members) && members != []
  }

  /** The payload, and what follows it. */
  function PayloadText(p: Payload, tail: string): string
    requires IsPayload(p)
  {
    match p
    case NullPayload => "null" + tail
    case Empty(inside) => "{" + (inside + ("}" + tail))
    case Object(members) => "{" + MembersText(members, tail)
  }

  /** The message a payload stands for, if it stands for one. */
  function Denoted(p: Payload): Option<WorkerMessage>
    requires IsPayload(p)
  {
    match p
    case Object(ms) => if AllFit(ms) then Some(Updated(WorkerMessage("", 0, 0, 0), ms)) else None
    case _ => Some(WorkerMessage("", 0, 0, 0))
  }

  /** The first character inside the braces is a quote. */
  lemma MembersOpen(ms: seq<Member>, tail: string)
    requires AreMembers(ms) && ms != []
    ensures var inside := Skip(MembersText(ms, tail)); inside != [] && inside[0] == '"'
  {
    var m := ms[0];
    var rest := ms[0].after + (if |ms| == 1 then "}" + tail else "," + MembersText(ms[1..], tail));
    SkipStops(m.before, '"', Quoted(m.name, m.afterName + (":" + (m.beforeValue + LiteralText(m.value, rest)))));
  }

  lemma ObjectReadsBack(ms: seq<Member>, tail: string)
    requires AreMembers(ms) && ms != []
    ensures Decode("{" + MembersText(ms, tail)) == if Blank(tail) then Denoted(Object(ms)) else None
  {
    var s := "{" + MembersText(ms, tail);
    assert s[1..] == MembersText(ms, tail);
    assert "null"[0] == 'n';
    MembersReadBack(ms, tail);
    MembersOpen(ms, tail);
    SkipAllOnlyBlanks(tail);
    MembersAssign(ZERO, ms);
  }

  /** Blanks in front change nothing. */
  lemma DecodeSkips(lead: string, s: string)
    requires Blank(lead)
    ensures Decode(lead + s) == Decode(s)
  {
    SkipBlank(lead, s);
  }

  /** A payload is decoded as what it denotes, if nothing but blanks follow. */
  lemma PayloadDecodes(lead: string, p: Payload, tail: string)
    requires Blank(lead) && IsPayload(p)
    ensures Decode(lead + PayloadText(p, tail)) == if Blank(tail) then Denoted(p) else None
  {
    var s := PayloadText(p, tail);
    DecodeSkips(lead, s);
    SkipAllOnlyBlanks(tail);
    match p
    case NullPayload => assert s[4..] == tail && s[0] == 'n';
    case Empty(inside) =>
      assert "null"[0] == 'n' && s[0] == '{' && s[1..] == inside + ("}" + tail);
      SkipStops(inside, '}', tail);
      assert ("}" + tail)[1..] == tail;
    case Object(members) => ObjectReadsBack(members, tail);
  }

  lemma NullWasWritten(s: string) returns (tail: string)
    requires Decode(s).Some? && "null" <= Skip(s)
    ensures Blank(tail) && Skip(s) == PayloadText(NullPayload, tail)
  {
    var start := Skip(s);
    tail := start[4..];
    assert start == start[..4] + start[4..];
    SkipAllOnlyBlanks(tail);
  }

  lemma EmptyWasWritten(s: string) returns (p: Payload, tail: string)
    requires Decode(s).Some? && Skip(s) != [] && Skip(s)[0] == '{'
    requires Skip(Skip(s)[1..]) != [] && Skip(Skip(s)[1..])[0] == '}'
    ensures IsPayload(p) && Blank(tail) && Skip(s)[1..] == PayloadText(p, tail)[1..] && p.Empty?
  {
    var blank := SkipSplits(Skip(s)[1..]);
    var inside := Skip(Skip(s)[1..]);
    p, tail := Empty(blank), inside[1..];
    assert inside == "}" + tail;
    SkipAllOnlyBlanks(tail);
  }

  lemma ObjectWasWritten(s: string) returns (p: Payload, tail: string)
    requires Decode(s).Some? && !("null" <= Skip(s))
    ensures IsPayload(p) && Blank(tail) && Skip(s) == PayloadText(p, tail)
  {
    var start := Skip(s);
    assert start == "{" + start[1..];
    var inside := Skip(start[1..]);
    if inside != [] && inside[0] == '}' {
      p, tail := EmptyWasWritten(s);
    } else {
      var members := MembersWereWritten(start[1..]);
      p, tail := Object(members), ReadPairs(start[1..]).value.1;
      SkipAllOnlyBlanks(tail);
    }
  }

  /** Whatever decodes was a payload. */
  lemma PayloadWasWritten(s: string) returns (lead: string, p: Payload, tail: string)
    requires Decode(s).Some?
    ensures Blank(lead) && IsPayload(p) && Blank(tail) && s == lead + PayloadText(p, tail)
  {
    lead := SkipSplits(s);
    if "null" <= Skip(s) {
      p := NullPayload;
      tail := NullWasWritten(s);
    } else {
      p, tail := ObjectWasWritten(s);
    }
  }

  /** The text is a payload between blanks, and denotes this message. */
  ghost predicate Says(s: string, message: WorkerMessage) {
    exists lead, p, tail ::
      Blank(lead) && IsPayload(p) && Blank(tail) && s == lead + PayloadText(p, tail) && Denoted(p) == Some(message)
  }

  /** The decoder's language, exactly: a text decodes to a message if and only if it is one of the texts above and says
      so. Unknown names, wrong types, numbers out of range and trailing text are the errors, and the only ones. */
  lemma DecodesExactly(s: string, message: WorkerMessage)
    ensures Decode(s) == Some(message) <==> Says(s, message)
  {
    if Decode(s) == Some(message) {
      var lead, p, tail := PayloadWasWritten(s);
      PayloadDecodes(lead, p, tail);
    }
    if Says(s, message) {
      var lead, p, tail :|
        Blank(lead) && IsPayload(p) && Blank(tail) && s == lead + PayloadText(p, tail) && Denoted(p) == Some(message);
      PayloadDecodes(lead, p, tail);
    }
  }

  // ----- The payload of a job -----

  /** The member gives one of the four fields its value for this job. */
  predicate Gives(m: Member, own: Message)
    requires IsMember(m)
  {
    || (IsCalled(m, "type") && m.value.TextOf? && Spelled(m.value.glyphs) == "work_item.process")
    || (IsCalled(m, "version") && m.value == NumberOf(false, 1))
    || (IsCalled(m, "job_id") && m.value.NumberOf? && !m.value.negative && m.value.n == own.job)
    || (IsCalled(m, "work_item_id") && m.value.NumberOf? && !m.value.negative && m.value.n == own.item)
  }

  ghost predicate Mentions(ms: seq<Member>, field: string)
    requires AreMembers(ms)
  {
    exists k :: 0 <= k < |ms| && IsCalled(ms[k], field)
  }

  lemma MentionsFirst(ms: seq<Member>, field: string)
    requires AreMembers(ms) && ms != []
    ensures Mentions(ms, field) <==> IsCalled(ms[0], field) || Mentions(ms[1..], field)
  {
    if Mentions(ms[1..], field) {
      var k :| 0 <= k < |ms[1..]| && IsCalled(ms[1..][k], field);
      assert ms[k + 1] == ms[1..][k];
    }
    if Mentions(ms, field) && !IsCalled(ms[0], field) {
      var k :| 0 <= k < |ms| && IsCalled(ms[k], field);
      assert ms[1..][k - 1] == ms[k];
    }
  }

  predicate InRange(m: Message) {
    1 <= m.job <= MAX_INT && 1 <= m.item <= MAX_INT
  }

  lemma {:induction false} GivenFit(ms: seq<Member>, own: Message)
    requires AreMembers(ms) && InRange(own) && forall k :: 0 <= k < |ms| ==> Gives(ms[k], own)
    ensures AllFit(ms)
  {
  }

  lemma {:induction false} GivenText(ms: seq<Member>, own: Message, text: string)
    requires AreMembers(ms) && forall k :: 0 <= k < |ms| ==> Gives(ms[k], own)
    ensures TextFor(ms, "type", text) == if Mentions(ms, "type") then "work_item.process" else text
    decreases |ms|
  {
    if ms != [] {
      FieldsByName(Spelled(ms[0].name));
      MentionsFirst(ms, "type");
      assert Gives(ms[0], own);
      assert forall k :: 0 <= k < |ms[1..]| ==> ms[1..][k] == ms[k + 1];
      GivenText(ms[1..], own, if IsCalled(ms[0], "type") then "work_item.process" else text);
    }
  }

  /** All members called so are given this number. */
  predicate AllGive(ms: seq<Member>, field: string, value: nat)
    requires AreMembers(ms)
  {
    forall k :: 0 <= k < |ms| && IsCalled(ms[k], field) ==> ms[k].value == NumberOf(false, value)
  }

  lemma {:induction false} GivenNumber(ms: seq<Member>, field: string, value: nat, otherwise: int)
    requires AreMembers(ms) && AllGive(ms, field, value)
    ensures NumberFor(ms, field, otherwise) == if Mentions(ms, field) then value else otherwise
    decreases |ms|
  {
    if ms != [] {
      MentionsFirst(ms, field);
      assert forall k :: 0 <= k < |ms[1..]| ==> ms[1..][k] == ms[k + 1];
      GivenNumber(ms[1..], field, value, if IsCalled(ms[0], field) then value else otherwise);
    }
  }

  lemma GivenNumbers(ms: seq<Member>, own: Message)
    requires AreMembers(ms) && InRange(own) && forall k :: 0 <= k < |ms| ==> Gives(ms[k], own)
    ensures AllGive(ms, "version", 1) && AllGive(ms, "job_id", own.job) && AllGive(ms, "work_item_id", own.item)
  {
    forall k | 0 <= k < |ms|
      ensures IsCalled(ms[k], "version") ==> ms[k].value == NumberOf(false, 1)
      ensures IsCalled(ms[k], "job_id") ==> ms[k].value == NumberOf(false, own.job)
      ensures IsCalled(ms[k], "work_item_id") ==> ms[k].value == NumberOf(false, own.item)
    {
      FieldsByName(Spelled(ms[k].name));
      assert Gives(ms[k], own);
    }
  }

  /** Round trip, and nothing may follow: with all four fields given, in any order, spelling and layout and even
      repeated, decoding gives the same identities and passes validation if and only if what is appended is blank;
      otherwise decoding fails. */
  lemma RoundTrip(lead: string, ms: seq<Member>, own: Message, tail: string)
    requires InRange(own) && Blank(lead) && AreMembers(ms) && forall k :: 0 <= k < |ms| ==> Gives(ms[k], own)
    requires Mentions(ms, "type") && Mentions(ms, "version") && Mentions(ms, "job_id") && Mentions(ms, "work_item_id")
    ensures ms != []
    ensures var decoded := Decode(lead + PayloadText(Object(ms), tail));
            if Blank(tail)
            then decoded == Some(WorkerMessage("work_item.process", 1, own.job, own.item)) && IsValid(decoded.value)
            else decoded == None
  {
    PayloadDecodes(lead, Object(ms), tail);
    GivenFit(ms, own);
    GivenText(ms, own, "");
    GivenNumbers(ms, own);
    GivenNumber(ms, "version", 1, 0);
    GivenNumber(ms, "job_id", own.job, 0);
    GivenNumber(ms, "work_item_id", own.item, 0);
  }

  /** A name or text as it stands. */
  function Raws(s: string): (gs: seq<Glyph>)
    ensures |gs| == |s| && forall k :: 0 <= k < |s| ==> gs[k] == Raw(s[k])
  {
    if s == [] then [] else [Raw(s[0])] + Raws(s[1..])
  }

  predicate Plain(s: string) {
    forall k :: 0 <= k < |s| ==> s[k] != '"' && s[k] != '\\' && s[k] >= ' '
  }

  lemma {:induction false} RawsSpell(s: string)
    requires Plain(s)
    ensures AreGlyphs(Raws(s)) && Write(Raws(s)) == s && Spelled(Raws(s)) == s
    decreases |s|
  {
    if s != [] {
      RawsSpell(s[1..]);
      assert Raws(s)[1..] == Raws(s[1..]);
      assert [s[0]] + s[1..] == s;
    }
  }

  /** A plain member without blanks. */
  function Compact(name: string, value: Literal): Member {
    Member([], Raws(name), [], [], value, [])
  }

  lemma CompactText(name: string, value: Literal, tail: string)
    requires Plain(name) && IsLiteral(value)
    ensures IsMember(Compact(name, value)) && Spelled(Compact(name, value).name) == name
    ensures MemberText(Compact(name, value), tail) == "\"" + name + "\":" + LiteralText(value, tail)
  {
    RawsSpell(name);
    var text := LiteralText(value, tail);
    NothingBefore(":" + ([] + text));
    NothingBefore(text);
    NothingBefore("\"" + Quoted(Raws(name), ":" + text));
    QuotedName(name, text);
  }

  lemma QuotedName(name: string, text: string)
    ensures "\"" + (name + ("\"" + (":" + text))) == "\"" + name + "\":" + text
  {
    Regroup("\"", ":", text);
    assert "\"" + ":" == "\":";
    Regroup("\"", name, "\":" + text);
    Regroup("\"" + name, "\":", text);
  }

  lemma NothingBefore(s: string)
    ensures [] + s == s
  {
  }

  lemma CompactGives(name: string, value: Literal)
    requires Plain(name) && IsLiteral(value)
    ensures IsMember(Compact(name, value)) && IsCalled(Compact(name, value), name)
  {
    CompactText(name, value, "");
  }

  /** A name and its value as they are written without blanks. */
  function Written(name: string, value: string): string {
    "\"" + name + "\":" + value
  }

  /** The text of a value without what follows. */
  lemma TextBefore(v: Literal, tail: string)
    requires IsLiteral(v)
    ensures LiteralText(v, tail) == LiteralText(v, "") + tail
  {
    match v
    case TextOf(glyphs) =>
      Regroup(Write(glyphs), "\"" + "", tail);
      assert ("\"" + "") + tail == "\"" + tail;
      Regroup("\"", Quoted(glyphs, ""), tail);
    case NumberOf(_, n) => NumberBefore(PrintNatural(n), tail);
    case NullOf => assert "null" + "" == "null";
  }

  lemma NumberBefore(digits: string, tail: string)
    ensures digits + "" == digits && "-" + (digits + tail) == ("-" + (digits + "")) + tail
  {
    Regroup("-", digits, tail);
  }

  lemma CompactMember(name: string, v: Literal, tail: string)
    requires Plain(name) && IsLiteral(v)
    ensures IsMember(Compact(name, v)) && MemberText(Compact(name, v), tail) == Written(name, LiteralText(v, "")) + tail
  {
    CompactText(name, v, tail);
    TextBefore(v, tail);
    assert Written(name, LiteralText(v, "")) + tail == "\"" + name + "\":" + (LiteralText(v, "") + tail);
  }

  /** A member that nothing blank follows, in front of others. */
  lemma NextMember(m: Member, ms: seq<Member>, tail: string)
    requires IsMember(m) && AreMembers(ms) && m.after == []
    ensures AreMembers([m] + ms)
    ensures MembersText([m] + ms, tail) ==
            MemberText(m, if ms == [] then "}" + tail else "," + MembersText(ms, tail))
  {
    assert ([m] + ms)[1..] == ms;
    NothingBefore(if ms == [] then "}" + tail else "," + MembersText(ms, tail));
  }

  /** The payload of a job as an acceptance writes it: type, version and the two identities. */
  function OwnPayload(own: Message): string
    requires InRange(own)
  {
    "{" + Written("type", "\"" + "work_item.process" + "\"") + "," + Written("version", "1")
    + "," + Written("job_id", PrintNatural(own.job)) + "," + Written("work_item_id", PrintNatural(own.item)) + "}"
  }

  /** Any four members, in the order given, without blanks. */
  lemma FourMembers(a: Member, b: Member, c: Member, d: Member)
    requires IsMember(a) && IsMember(b) && IsMember(c) && IsMember(d)
    requires a.after == b.after == c.after == d.after == []
    ensures AreMembers([a, b, c, d])
    ensures MembersText([a, b, c, d], "") ==
            MemberText(a, "," + MemberText(b, "," + MemberText(c, "," + MemberText(d, "}"))))
  {
    NextMember(d, [], "");
    NextMember(c, [d], "");
    NextMember(b, [c, d], "");
    NextMember(a, [b, c, d], "");
    assert [d] + [] == [d] && [c] + [d] == [c, d] && [b] + [c, d] == [b, c, d] && [a] + [b, c, d] == [a, b, c, d];
    assert "}" + "" == "}";
  }

  lemma Associates(a: string, b: string, c: string, d: string)
    ensures "{" + (a + ("," + (b + ("," + (c + ("," + (d + "}"))))))) ==
            "{" + a + "," + b + "," + c + "," + d + "}"
  {
  }

  lemma FourWritten(a: string, x: Literal, b: string, y: Literal, c: string, z: Literal, d: string, w: Literal)
    requires Plain(a) && Plain(b) && Plain(c) && Plain(d)
    requires IsLiteral(x) && IsLiteral(y) && IsLiteral(z) && IsLiteral(w)
    ensures var ms := [Compact(a, x), Compact(b, y), Compact(c, z), Compact(d, w)];
            && AreMembers(ms)
            && PayloadText(Object(ms), "") ==
               "{" + Written(a, LiteralText(x, "")) + "," + Written(b, LiteralText(y, ""))
               + "," + Written(c, LiteralText(z, "")) + "," + Written(d, LiteralText(w, "")) + "}"
  {
    CompactMember(d, w, "}");
    var third := "," + MemberText(Compact(d, w), "}");
    CompactMember(c, z, third);
    var second := "," + MemberText(Compact(c, z), third);
    CompactMember(b, y, second);
    var first := "," + MemberText(Compact(b, y), second);
    CompactMember(a, x, first);
    FourMembers(Compact(a, x), Compact(b, y), Compact(c, z), Compact(d, w));
    Associates(Written(a, LiteralText(x, "")), Written(b, LiteralText(y, "")),
               Written(c, LiteralText(z, "")), Written(d, LiteralText(w, "")));
  }

  /** A plain text as a value. */
  lemma TextValue(t: string)
    requires Plain(t)
    ensures var v := TextOf(Raws(t));
            IsLiteral(v) && Spelled(v.glyphs) == t && LiteralText(v, "") == "\"" + t + "\""
  {
    RawsSpell(t);
    assert "\"" + "" == "\"";
  }

  lemma PlainNames()
    ensures Plain("type") && Plain("version") && Plain("job_id") && Plain("work_item_id") && Plain("work_item.process")
  {
  }

  lemma KindIsGiven(own: Message, kind: Literal)
    requires InRange(own) && kind.TextOf? && IsLiteral(kind) && Spelled(kind.glyphs) == "work_item.process"
    ensures var m := Compact("type", kind); IsMember(m) && IsCalled(m, "type") && Gives(m, own)
  {
    CompactGives("type", kind);
  }

  lemma VersionIsGiven(own: Message)
    requires InRange(own)
    ensures var m := Compact("version", NumberOf(false, 1)); IsMember(m) && IsCalled(m, "version") && Gives(m, own)
  {
    CompactGives("version", NumberOf(false, 1));
  }

  lemma JobIsGiven(own: Message)
    requires InRange(own)
    ensures var m := Compact("job_id", NumberOf(false, own.job)); IsMember(m) && IsCalled(m, "job_id") && Gives(m, own)
  {
    CompactGives("job_id", NumberOf(false, own.job));
  }

  lemma ItemIsGiven(own: Message)
    requires InRange(own)
    ensures var m := Compact("work_item_id", NumberOf(false, own.item));
            IsMember(m) && IsCalled(m, "work_item_id") && Gives(m, own)
  {
    CompactGives("work_item_id", NumberOf(false, own.item));
  }

  /** Four members in a row that give the four fields. */
  lemma FourDecode(own: Message, a: Member, b: Member, c: Member, d: Member)
    requires InRange(own) && IsMember(a) && IsMember(b) && IsMember(c) && IsMember(d)
    requires IsCalled(a, "type") && IsCalled(b, "version") && IsCalled(c, "job_id") && IsCalled(d, "work_item_id")
    requires Gives(a, own) && Gives(b, own) && Gives(c, own) && Gives(d, own)
    ensures Decode(PayloadText(Object([a, b, c, d]), "")) ==
            Some(WorkerMessage("work_item.process", 1, own.job, own.item))
  {
    var ms := [a, b, c, d];
    assert IsCalled(ms[0], "type") && IsCalled(ms[1], "version");
    assert IsCalled(ms[2], "job_id") && IsCalled(ms[3], "work_item_id");
    RoundTrip("", ms, own, "");
    assert "" + PayloadText(Object(ms), "") == PayloadText(Object(ms), "");
  }

  /** The payload an acceptance writes is decoded to its own identities. */
  lemma OwnPayloadDecodes(own: Message)
    requires InRange(own)
    ensures Decode(OwnPayload(own)) == Some(WorkerMessage("work_item.process", 1, own.job, own.item))
  {
    PlainNames();
    TextValue("work_item.process");
    var kind := TextOf(Raws("work_item.process"));
    KindIsGiven(own, kind);
    VersionIsGiven(own);
    JobIsGiven(own);
    ItemIsGiven(own);
    FourDecode(own, Compact("type", kind), Compact("version", NumberOf(false, 1)),
               Compact("job_id", NumberOf(false, own.job)), Compact("work_item_id", NumberOf(false, own.item)));
    FourWritten("type", kind, "version", NumberOf(false, 1),
                "job_id", NumberOf(false, own.job), "work_item_id", NumberOf(false, own.item));
    NumberText(own.job);
    NumberText(own.item);
    NumberText(1);
    assert PrintNatural(1) == "1";
  }

  lemma NumberText(n: nat)
    ensures LiteralText(NumberOf(false, n), "") == PrintNatural(n)
  {
  }
}
