/** The outbox payload and the worker's decoder: JSON (RFC 8259) read the way the worker reads it.
    Only null, or a flat object of strings, integers and nulls under known names, can decode without an error:
    every other JSON value is an error for this message, so the decoder here refuses it as it refuses bad syntax. */
module MessageFormat {
  import opened Option

  const MESSAGE_TYPE := "work_item.process"
  const MESSAGE_VERSION := 1
  const MIN_INT := -0x8000_0000_0000_0000
  const MAX_INT := 0x7FFF_FFFF_FFFF_FFFF

  datatype Value = Text(text: string) | Number(number: int) | Null

  datatype WorkerMessage = WorkerMessage(kind: string, version: int, job: int, item: int)

  const ZERO := WorkerMessage("", 0, 0, 0)

  datatype Field = KindField | VersionField | JobField | ItemField

  // ----- Reading -----

  predicate IsBlank(c: char) {
    c == ' ' || c == '\t' || c == '\n' || c == '\r'
  }

  predicate IsDigit(c: char) {
    '0' <= c <= '9'
  }

  function Skip(s: string): (rest: string)
    ensures |rest| <= |s| && (rest != [] ==> !IsBlank(rest[0]))
  {
    if s != [] && IsBlank(s[0]) then Skip(s[1..]) else s
  }

  function HexDigit(c: char): (digit: Option<nat>)
    ensures digit.Some? ==> digit.value < 16
  {
    if IsDigit(c) then Some((c - '0') as nat)
    else if 'a' <= c <= 'f' then Some((c - 'a') as nat + 10)
    else if 'A' <= c <= 'F' then Some((c - 'A') as nat + 10)
    else None
  }

  /** The code unit of four hexadecimal digits. */
  function CodeUnit(s: string): (unit: Option<nat>)
    ensures unit.Some? ==> |s| >= 4 && unit.value < 0x1_0000
  {
    if |s| < 4 then None
    else match (HexDigit(s[0]), HexDigit(s[1]), HexDigit(s[2]), HexDigit(s[3]))
      case (Some(a), Some(b), Some(c), Some(d)) => Some(((a * 16 + b) * 16 + c) * 16 + d)
      case _ => None
  }

  /** After "\u": a code point, a surrogate pair, or the replacement character for a lone surrogate. */
  function UnicodeEscape(s: string): (r: Option<(char, string)>)
    ensures r.Some? ==> |r.value.1| < |s|
  {
    match CodeUnit(s)
    case None => None
    case Some(unit) =>
      if unit < 0xD800 || 0xE000 <= unit then Some((unit as char, s[4..]))
      else if unit < 0xDC00 && |s| >= 10 && s[4] == '\\' && s[5] == 'u' then
        match CodeUnit(s[6..])
        case Some(low) =>
          if 0xDC00 <= low < 0xE000
          then Some((((unit - 0xD800) * 0x400 + (low - 0xDC00) + 0x1_0000) as char, s[10..]))
          else Some(('\U{FFFD}', s[4..]))
        case None => Some(('\U{FFFD}', s[4..]))
      else Some(('\U{FFFD}', s[4..]))
  }

  function Escape(s: string): (r: Option<(char, string)>)
    ensures r.Some? ==> |r.value.1| < |s|
  {
    if s == [] then None
    else match s[0]
      case '"' => Some(('"', s[1..]))
      case '\\' => Some(('\\', s[1..]))
      case '/' => Some(('/', s[1..]))
      case 'b' => Some(('\U{0008}', s[1..]))
      case 'f' => Some(('\U{000C}', s[1..]))
      case 'n' => Some(('\n', s[1..]))
      case 'r' => Some(('\r', s[1..]))
      case 't' => Some(('\t', s[1..]))
      case 'u' => UnicodeEscape(s[1..])
      case _ => None
  }

  /** The rest of a string literal after its opening quote, and what follows it. */
  function ReadText(s: string): (r: Option<(string, string)>)
    ensures r.Some? ==> |r.value.1| < |s|
    decreases |s|
  {
    if s == [] || s[0] < ' ' then None
    else if s[0] == '"' then Some(([], s[1..]))
    else
      match (if s[0] == '\\' then Escape(s[1..]) else Some((s[0], s[1..])))
      case None => None
      case Some((c, after)) =>
        (match ReadText(after)
         case Some((text, rest)) => Some(([c] + text, rest))
         case None => None)
  }

  function ReadDigits(s: string, sofar: nat): (r: (nat, string))
    ensures |r.1| <= |s|
    decreases |s|
  {
    if s != [] && IsDigit(s[0]) then ReadDigits(s[1..], 10 * sofar + (s[0] - '0') as nat) else (sofar, s)
  }

  /** An integer literal: no leading zeros, no fraction, no exponent. */
  function ReadNatural(s: string): (r: Option<(nat, string)>)
    ensures r.Some? ==> |r.value.1| < |s|
  {
    if s == [] || !IsDigit(s[0]) then None
    else if s[0] == '0' then Some((0, s[1..]))
    else Some(ReadDigits(s[1..], (s[0] - '0') as nat))
  }

  function ReadValue(s: string): (r: Option<(Value, string)>)
    ensures r.Some? ==> |r.value.1| < |s|
  {
    if s == [] then None
    else if s[0] == '"' then
      (match ReadText(s[1..])
       case Some((text, rest)) => Some((Text(text), rest))
       case None => None)
    else if s[0] == '-' then
      (match ReadNatural(s[1..])
       case Some((n, rest)) => Some((Number(-(n as int)), rest))
       case None => None)
    else if "null" <= s then Some((Null, s[4..]))
    else
      match ReadNatural(s)
      case Some((n, rest)) => Some((Number(n), rest))
      case None => None
  }

  type Pair = (string, Value)

  /** One name, colon and value. */
  function ReadPair(s: string): (r: Option<(Pair, string)>)
    ensures r.Some? ==> |r.value.1| < |s|
  {
    var start := Skip(s);
    if start == [] || start[0] != '"' then None
    else
      match ReadText(start[1..])
      case None => None
      case Some((name, afterName)) =>
        var colon := Skip(afterName);
        if colon == [] || colon[0] != ':' then None
        else
          match ReadValue(Skip(colon[1..]))
          case Some((value, rest)) => Some(((name, value), rest))
          case None => None
  }

  /** The pairs up to the closing brace, and what follows it. */
  function ReadPairs(s: string): (r: Option<(seq<Pair>, string)>)
    decreases |s|
  {
    match ReadPair(s)
    case None => None
    case Some((pair, afterPair)) =>
      var next := Skip(afterPair);
      if next == [] then None
      else if next[0] == '}' then Some(([pair], next[1..]))
      else if next[0] == ',' then
        match ReadPairs(next[1..])
        case Some((pairs, rest)) => Some(([pair] + pairs, rest))
        case None => None
      else None
  }

  /** Go matches names without regard to case, by simple folding: two non-ASCII letters fold onto ASCII ones. */
  function FoldChar(c: char): char {
    if 'A' <= c <= 'Z' then c - 'A' + 'a'
    else if c == '\U{017F}' then 's'
    else if c == '\U{212A}' then 'k'
    else c
  }

  function Fold(s: string): string {
    if s == [] then [] else [FoldChar(s[0])] + Fold(s[1..])
  }

  function NameOf(field: Field): string {
    match field
    case KindField => "type"
    case VersionField => "version"
    case JobField => "job_id"
    case ItemField => "work_item_id"
  }

  function FieldNamed(name: string): Option<Field> {
    var folded := Fold(name);
    if folded == NameOf(KindField) then Some(KindField)
    else if folded == NameOf(VersionField) then Some(VersionField)
    else if folded == NameOf(JobField) then Some(JobField)
    else if folded == NameOf(ItemField) then Some(ItemField)
    else None
  }

  /** Null leaves a field as it is; an unknown name, a wrong type or a number out of range is an error. */
  function AssignOne(message: WorkerMessage, pair: Pair): Option<WorkerMessage> {
    match (FieldNamed(pair.0), pair.1)
    case (Some(_), Null) => Some(message)
    case (Some(KindField), Text(text)) => Some(message.(kind := text))
    case (Some(VersionField), Number(n)) => if MIN_INT <= n <= MAX_INT then Some(message.(version := n)) else None
    case (Some(JobField), Number(n)) => if MIN_INT <= n <= MAX_INT then Some(message.(job := n)) else None
    case (Some(ItemField), Number(n)) => if MIN_INT <= n <= MAX_INT then Some(message.(item := n)) else None
    case _ => None
  }

  /** Later pairs overwrite earlier ones. */
  function Assign(message: WorkerMessage, pairs: seq<Pair>): Option<WorkerMessage>
    decreases |pairs|
  {
    if pairs == [] then Some(message)
    else match AssignOne(message, pairs[0])
      case Some(updated) => Assign(updated, pairs[1..])
      case None => None
  }

  /** decodeWorkerMessage: one JSON value and nothing but blanks behind it. */
  function Decode(s: string): Option<WorkerMessage> {
    var start := Skip(s);
    if "null" <= start then
      if Skip(start[4..]) == [] then Some(ZERO) else None
    else if start == [] || start[0] != '{' then None
    else
      var inside := Skip(start[1..]);
      if inside != [] && inside[0] == '}' then
        if Skip(inside[1..]) == [] then Some(ZERO) else None
      else
        match ReadPairs(start[1..])
        case Some((pairs, rest)) => if Skip(rest) == [] then Assign(ZERO, pairs) else None
        case None => None
  }

  /** validateWorkerMessage. */
  predicate IsValid(m: WorkerMessage) {
    m.kind == MESSAGE_TYPE && m.version == MESSAGE_VERSION && m.job > 0 && m.item > 0
  }
}
