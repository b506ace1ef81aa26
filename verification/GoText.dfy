/** Text and number helpers of Go's standard library that the provider relies on: fixed-width
    integers, decimal and boolean text, and splitting at a separator. */
module GoText {

  datatype Option<+T> = None | Some(value: T)

  /** The error classes the provider tells apart; the message text is not modelled.
      Panic stands for a run-time panic. */
  datatype Error = NilNotAllowed | TypeMismatch | Other | Panic

  datatype Result<+T> = Ok(value: T) | Err(error: Error) {
    predicate IsFailure() {
      Err?
    }

    function PropagateFailure<U>(): Result<U>
      requires Err?
    {
      Err(error)
    }

    function Extract(): T
      requires Ok?
    {
      value
    }
  }

  /** The items collected so far followed by those still to come, if they can be had. */
  function Chain<T>(done: seq<T>, rest: Result<seq<T>>): Result<seq<T>> {
    if rest.Ok? then Ok(done + rest.value) else rest
  }

  lemma ChainStep<T>(done: seq<T>, next: T, rest: Result<seq<T>>)
    ensures Chain(done + [next], rest) == Chain(done, Chain([next], rest))
  {
    if rest.Ok? {
      assert done + [next] + rest.value == done + ([next] + rest.value);
    }
  }

  lemma ChainStart<T>(r: Result<seq<T>>)
    ensures Chain([], r) == r
  {
    if r.Ok? {
      assert [] + r.value == r.value;
    }
  }

  /** `order` lists every element of `keys` exactly once: one possible run of Go's `range` over a map. */
  ghost predicate Lists<K(!new)>(order: seq<K>, keys: set<K>) {
    && (forall k :: k in order <==> k in keys)
    && (forall i, j :: 0 <= i < j < |order| ==> order[i] != order[j])
  }

  ghost function SomeOrder<K(!new)>(keys: set<K>): (order: seq<K>)
    ensures Lists(order, keys)
  {
    if keys == {} then []
    else
      var k: K :| k in keys;
      [k] + SomeOrder(keys - {k})
  }

  // ---------- fixed-width integers ----------

  datatype Width = W8 | W16 | W32 | W64

  function Half(w: Width): (h: int)
    ensures h > 0
  {
    match w
    case W8 => 0x80
    case W16 => 0x8000
    case W32 => 0x8000_0000
    case W64 => 0x8000_0000_0000_0000
  }

  predicate Fits(w: Width, n: int) {
    -Half(w) <= n < Half(w)
  }

  /** Two's-complement truncation, as Go converts between integer types. */
  function Wrap(w: Width, n: int): (r: int)
    ensures Fits(w, r)
    ensures r == n <==> Fits(w, n)
    ensures exists turns: int :: n == r + Turn(w, turns)
  {
    var r := match w
      case W8 => (n + 0x80) % 0x100 - 0x80
      case W16 => (n + 0x8000) % 0x1_0000 - 0x8000
      case W32 => (n + 0x8000_0000) % 0x1_0000_0000 - 0x8000_0000
      case W64 => (n + 0x8000_0000_0000_0000) % 0x1_0000_0000_0000_0000 - 0x8000_0000_0000_0000;
    var turns := match w
      case W8 => (n + 0x80) / 0x100
      case W16 => (n + 0x8000) / 0x1_0000
      case W32 => (n + 0x8000_0000) / 0x1_0000_0000
      case W64 => (n + 0x8000_0000_0000_0000) / 0x1_0000_0000_0000_0000;
    assert n == r + Turn(w, turns);
    r
  }

  /** A whole number of turns around the value range of the width. */
  function Turn(w: Width, turns: int): int {
    match w
    case W8 => 0x100 * turns
    case W16 => 0x1_0000 * turns
    case W32 => 0x1_0000_0000 * turns
    case W64 => 0x1_0000_0000_0000_0000 * turns
  }

  // ---------- decimal text ----------

  predicate IsDigit(c: char) {
    '0' <= c <= '9'
  }

  predicate AllDigits(s: string) {
    forall i :: 0 <= i < |s| ==> IsDigit(s[i])
  }

  function DigitValue(c: char): (d: nat)
    requires IsDigit(c)
    ensures d < 10
  {
    c as int - '0' as int
  }

  function DigitChar(d: nat): (c: char)
    requires d < 10
    ensures IsDigit(c) && DigitValue(c) == d
  {
    '0' + d as char
  }

  function Digits(n: nat): (s: string)
    ensures |s| > 0 && AllDigits(s)
    ensures Decimal(s) == n
  {
    if n < 10 then [DigitChar(n)]
    else
      var s := Digits(n / 10) + [DigitChar(n % 10)];
      assert s[..|s| - 1] == Digits(n / 10);
      s
  }

  function Decimal(s: string): nat
    requires AllDigits(s)
  {
    if s == "" then 0 else 10 * Decimal(s[..|s| - 1]) + DigitValue(s[|s| - 1])
  }

  /** strconv.Itoa */
  function Itoa(n: int): (s: string)
    ensures |s| > 0
    ensures forall c | c in s :: c == '-' || IsDigit(c)
  {
    if n < 0 then "-" + Digits(-n) else Digits(n)
  }

  /** strconv.Atoi on a 64-bit platform: an optional sign, decimal digits, int64 range. */
  function Atoi(s: string): (n: Option<int>)
    ensures n.Some? ==> s != "" && Fits(W64, n.value)
  {
    var signed := s != "" && (s[0] == '-' || s[0] == '+');
    var digits := if signed then s[1..] else s;
    if digits == "" || !AllDigits(digits) then None
    else
      var n: int := if signed && s[0] == '-' then -(Decimal(digits) as int) else Decimal(digits);
      if Fits(W64, n) then Some(n) else None
  }

  lemma AtoiInvertsItoa(n: int)
    ensures Atoi(Itoa(n)) == if Fits(W64, n) then Some(n) else None
  {
  }

  /** Digits with or without a sign are read, leading zeros included; and nothing else is. */
  lemma AtoiExact(s: string, n: int)
    ensures Atoi(s) == Some(n) <==>
            && Fits(W64, n)
            && exists digits: string ::
                 && digits != "" && AllDigits(digits)
                 && ((s == digits && n == Decimal(digits)) || (s == "+" + digits && n == Decimal(digits))
                     || (s == "-" + digits && n == -(Decimal(digits) as int)))
  {
    if digits: string :| digits != "" && AllDigits(digits) && s in [digits, "+" + digits, "-" + digits] {
      assert IsDigit(digits[0]);
      assert ("+" + digits)[1..] == digits && ("-" + digits)[1..] == digits;
    }
    if Atoi(s) == Some(n) {
      var digits := if s[0] == '-' || s[0] == '+' then s[1..] else s;
      assert s == digits || s == "+" + digits || s == "-" + digits;
    }
  }

  // ---------- booleans ----------

  /** strconv.FormatBool */
  function FormatBool(b: bool): string {
    if b then "true" else "false"
  }

  /** strconv.ParseBool */
  function ParseBool(s: string): Option<bool> {
    if s in ["1", "t", "T", "true", "TRUE", "True"] then Some(true)
    else if s in ["0", "f", "F", "false", "FALSE", "False"] then Some(false)
    else None
  }

  // ---------- letter case ----------

  function UpperChar(c: char): char {
    if 'a' <= c <= 'z' then c - 'a' + 'A' else c
  }

  function LowerChar(c: char): char {
    if 'A' <= c <= 'Z' then c - 'A' + 'a' else c
  }

  /** strings.ToUpper on ASCII */
  function Upper(s: string): (u: string)
    ensures |u| == |s| && forall i | 0 <= i < |s| :: u[i] == UpperChar(s[i])
  {
    seq(|s|, i requires 0 <= i < |s| => UpperChar(s[i]))
  }

  /** strings.ToLower on ASCII */
  function Lower(s: string): (l: string)
    ensures |l| == |s| && forall i | 0 <= i < |s| :: l[i] == LowerChar(s[i])
  {
    seq(|s|, i requires 0 <= i < |s| => LowerChar(s[i]))
  }

  lemma UpperOfLower(s: string)
    ensures Upper(Lower(s)) == Upper(s)
    ensures Upper(Upper(s)) == Upper(s)
  {
  }

  // ---------- generated enums ----------

  /** The two name tables the protobuf compiler generates for an enum. */
  datatype EnumTable = EnumTable(names: map<int, string>, values: map<string, int>)

  /** The tables are inverse to each other; names are upper case and do not look like numbers. */
  ghost predicate TableOk(e: EnumTable) {
    && (forall v | v in e.names :: e.names[v] in e.values && e.values[e.names[v]] == v)
    && (forall s | s in e.values :: e.values[s] in e.names && e.names[e.values[s]] == s)
    && (forall s | s in e.values :: s != "" && Upper(s) == s && !IsDigit(s[0]) && s[0] != '-')
  }

  /** The laws of a table can be met, by one with a zero value. */
  lemma TableExists()
    ensures exists e :: TableOk(e) && 0 in e.names
  {
    var e := EnumTable(map[0 := "NONE"], map["NONE" := 0]);
    assert Upper("NONE") == "NONE";
    assert TableOk(e) && 0 in e.names;
  }

  /** String() of an enum value: its name, or its number when it has none. */
  function EnumText(e: EnumTable, v: int): string {
    if v in e.names then e.names[v] else Itoa(v)
  }

  lemma EnumTextReadsBack(e: EnumTable, v: int)
    requires TableOk(e)
    ensures EnumText(e, v) != ""
    ensures Upper(EnumText(e, v)) == EnumText(e, v)
    ensures EnumText(e, v) in e.values <==> v in e.names
    ensures v in e.names ==> e.values[EnumText(e, v)] == v
  {
  }

  // ---------- splitting ----------

  /** strings.Split at a one-character separator. */
  function Split(s: string, sep: char): (parts: seq<string>)
    ensures |parts| > 0
  {
    if s == "" then [""]
    else
      var rest := Split(s[1..], sep);
      if s[0] == sep then [""] + rest
      else [[s[0]] + rest[0]] + rest[1..]
  }

  lemma {:induction false} SplitParts(s: string, sep: char)
    ensures forall p | p in Split(s, sep) :: sep !in p
    ensures sep !in s <==> Split(s, sep) == [s]
  {
    if s != "" {
      SplitParts(s[1..], sep);
      assert s == [s[0]] + s[1..];
      if s[0] != sep {
        assert Split(s, sep)[0] == [s[0]] + Split(s[1..], sep)[0];
      }
    }
  }

  function Join(parts: seq<string>, sep: char): string
    requires |parts| > 0
  {
    if |parts| == 1 then parts[0] else parts[0] + [sep] + Join(parts[1..], sep)
  }

  lemma SplitStep(s: string, sep: char)
    requires s != "" && s[0] != sep
    ensures Split(s, sep) == [[s[0]] + Split(s[1..], sep)[0]] + Split(s[1..], sep)[1..]
  {
  }

  lemma {:induction false} SplitPrepend(p: string, s: string, sep: char)
    requires sep !in p
    ensures Split(p + s, sep)[0] == p + Split(s, sep)[0]
    ensures Split(p + s, sep)[1..] == Split(s, sep)[1..]
  {
    if p == "" {
      assert p + s == s;
    } else {
      SplitPrepend(p[1..], s, sep);
      var t := p[1..] + s;
      assert p + s == [p[0]] + t && (p + s)[1..] == t;
      SplitStep(p + s, sep);
      assert [p[0]] + (p[1..] + Split(s, sep)[0]) == p + Split(s, sep)[0];
    }
  }

  /** Splitting undoes joining exactly when no part contains the separator. */
  lemma {:induction false} SplitInvertsJoin(parts: seq<string>, sep: char)
    requires |parts| > 0
    ensures Split(Join(parts, sep), sep) == parts <==> forall p | p in parts :: sep !in p
  {
    SplitParts(Join(parts, sep), sep);
    if forall p | p in parts :: sep !in p {
      SplitJoined(parts, sep);
    }
  }

  lemma {:induction false} SplitJoined(parts: seq<string>, sep: char)
    requires |parts| > 0
    requires forall p | p in parts :: sep !in p
    ensures Split(Join(parts, sep), sep) == parts
  {
    if |parts| == 1 {
      SplitParts(parts[0], sep);
    } else {
      SplitJoined(parts[1..], sep);
      var tail := [sep] + Join(parts[1..], sep);
      assert tail[1..] == Join(parts[1..], sep);
      SplitPrepend(parts[0], tail, sep);
      assert Join(parts, sep) == parts[0] + tail;
      assert Split(tail, sep) == [""] + parts[1..];
      var r := Split(parts[0] + tail, sep);
      assert r[0] == parts[0] && r[1..] == parts[1..];
      assert r == [r[0]] + r[1..] && parts == [parts[0]] + parts[1..];
    }
  }
}
