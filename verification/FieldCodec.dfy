/** How one settings field turns integers into text and back (yandex/dynamic_fields.go): plain
    decimal text, or the names of an enum, one at a time or as a comma-joined list. */
module FieldCodec {
  import opened GoText

  type Names = map<int, string>

  /** A field either has no conversion functions of its own, or the pair built over one table of
      names: `rev` is the reversed table the decoder consults first and `rev2` the second one
      (empty when the field has a single table). */
  datatype Codec =
    | Plain
    | Enum(values: Names, rev: map<string, int>, rev2: map<string, int>, def: int)

  /** A field's own check of its text: that it lists names of an enum field, or any other function. */
  datatype Check = NamesOf(field: string) | CheckWith(check: string -> Option<Error>)

  /** What the provider records by hand about a field. */
  datatype ManualInfo = ManualInfo(
    codec: Codec,
    defaultInt: Option<int>,
    defaultString: string,
    isDefaultSet: bool,
    minInt: Option<int>,
    maxInt: Option<int>,
    isNotNullable: bool,
    skip: bool,
    isStringable: bool,
    emptySlice: string,
    check: Option<Check>,
    compare: Option<(string, string) -> bool>
  )

  // ---------- reversing a table of names ----------

  ghost predicate Distinct(values: Names) {
    forall a, b | a in values && b in values && values[a] == values[b] :: a == b
  }

  /** The table built by ranging over `order` and storing each name's number: the last one wins. */
  function Reversed(values: Names, order: seq<int>): map<string, int>
    requires forall k | k in order :: k in values
  {
    if order == [] then map[]
    else
      var last := order[|order| - 1];
      Reversed(values, order[..|order| - 1])[values[last] := last]
  }

  ghost predicate ReverseOf(values: Names, rev: map<string, int>) {
    && (forall k | k in values :: values[k] in rev)
    && (forall s | s in rev :: rev[s] in values && values[rev[s]] == s)
  }

  method ReverseNames(values: Names, order: seq<int>) returns (rev: map<string, int>)
    requires Lists(order, values.Keys)
    ensures rev == Reversed(values, order)
    ensures ReverseOf(values, rev)
  {
    rev := map[];
    for i := 0 to |order|
      invariant rev == Reversed(values, order[..i])
    {
      rev := rev[values[order[i]] := order[i]];
      assert order[..i + 1][..i] == order[..i];
    }
    assert order[..|order|] == order;
    ReversedIsReverse(values, order);
  }

  lemma ReversedIsReverse(values: Names, order: seq<int>)
    requires Lists(order, values.Keys)
    ensures ReverseOf(values, Reversed(values, order))
  {
    ReversedPointsBack(values, order);
    assert forall k | k in values :: k in order;
  }

  lemma ReverseCovers(values: Names, r1: map<string, int>, r2: map<string, int>)
    requires Distinct(values) && ReverseOf(values, r1) && ReverseOf(values, r2)
    ensures forall s | s in r1 :: s in r2 && r1[s] == r2[s]
  {
    forall s | s in r1
      ensures s in r2 && r1[s] == r2[s]
    {
      var k := r1[s];
      assert values[k] in r2;
    }
  }

  lemma ReverseIsUnique(values: Names, r1: map<string, int>, r2: map<string, int>)
    requires Distinct(values) && ReverseOf(values, r1) && ReverseOf(values, r2)
    ensures r1 == r2
  {
    ReverseCovers(values, r1, r2);
    ReverseCovers(values, r2, r1);
  }

  lemma {:induction false} ReversedPointsBack(values: Names, order: seq<int>)
    requires forall k | k in order :: k in values
    ensures forall k | k in order :: values[k] in Reversed(values, order)
    ensures forall s | s in Reversed(values, order) ::
              Reversed(values, order)[s] in order && values[Reversed(values, order)[s]] == s
  {
    if order != [] {
      ReversedPointsBack(values, order[..|order| - 1]);
    }
  }

  /** The reversed table does not depend on Go's iteration order exactly when no two numbers share
      a name. */
  lemma ReversalOrderFree(values: Names)
    ensures Distinct(values) <==>
            forall o1, o2 | Lists(o1, values.Keys) && Lists(o2, values.Keys) ::
              Reversed(values, o1) == Reversed(values, o2)
  {
    if Distinct(values) {
      forall o1, o2 | Lists(o1, values.Keys) && Lists(o2, values.Keys)
        ensures Reversed(values, o1) == Reversed(values, o2)
      {
        ReversedIsReverse(values, o1);
        ReversedIsReverse(values, o2);
        ReverseIsUnique(values, Reversed(values, o1), Reversed(values, o2));
      }
    } else {
      var a, b :| a in values && b in values && values[a] == values[b] && a != b;
      var o1, o2 := OrderEndingIn(values.Keys, a), OrderEndingIn(values.Keys, b);
      assert Reversed(values, o1)[values[a]] == a;
      assert Reversed(values, o2)[values[a]] == b;
    }
  }

  ghost function OrderEndingIn(keys: set<int>, last: int): (order: seq<int>)
    requires last in keys
    ensures Lists(order, keys)
    ensures order[|order| - 1] == last
  {
    SomeOrder(keys - {last}) + [last]
  }

  // ---------- one value ----------

  /** intToString: a nil integer prints as the enum's default, or as "". */
  function Encode(c: Codec, v: Option<int>): Result<string> {
    match c
    case Plain => Ok(if v.None? then "" else Itoa(v.value))
    case Enum(values, _, _, def) =>
      var i := if v.None? then def else v.value;
      if i in values then Ok(values[i]) else Err(Other)
  }

  /** stringToInt: an enum tries its own names, then the second table, then a decimal number. */
  function Decode(c: Codec, s: string): Result<Option<int>> {
    if s == "" then Ok(if c.Enum? then Some(c.def) else None)
    else if c.Enum? && s in c.rev then Ok(Some(c.rev[s]))
    else if c.Enum? && s in c.rev2 then Ok(Some(c.rev2[s]))
    else
      var n := Atoi(s);
      if n.Some? then Ok(n) else Err(TypeMismatch)
  }

  /** The number that the text of i leads back to, if it has a text that can be read. */
  function ReadBack(c: Codec, i: int): Option<int> {
    match c
    case Plain => if Fits(W64, i) then Some(i) else None
    case Enum(values, rev, _, def) =>
      if i !in values then None
      else if values[i] == "" then Some(def)
      else if values[i] in rev then Some(rev[values[i]])
      else None
  }

  /** The value's own text leads back to it: its name is listed under no other number, and a value
      with an empty name is the default. */
  predicate TrueName(c: Codec, i: int) {
    ReadBack(c, i) == Some(i)
  }

  predicate Printable(c: Codec, i: int) {
    c.Enum? ==> i in c.values
  }

  ghost predicate CodecOk(c: Codec) {
    c.Enum? ==> ReverseOf(c.values, c.rev)
  }

  /** Every name is non-empty and names a single number. */
  ghost predicate Faithful(c: Codec) {
    && CodecOk(c)
    && (c.Enum? ==> Distinct(c.values) && forall k | k in c.values :: c.values[k] != "")
  }

  lemma DecodeInvertsEncode(c: Codec, i: int)
    requires CodecOk(c) && Printable(c, i)
    ensures Encode(c, Some(i)).Ok?
    ensures Decode(c, Encode(c, Some(i)).value) ==
            if ReadBack(c, i).Some? then Ok(ReadBack(c, i)) else Err(TypeMismatch)
    ensures Decode(c, Encode(c, Some(i)).value) == Ok(Some(i)) <==> TrueName(c, i)
    ensures Faithful(c) && (c.Plain? ==> Fits(W64, i)) ==> TrueName(c, i)
  {
    if Faithful(c) && c.Enum? {
      assert c.values[i] in c.rev && c.rev[c.values[i]] == i;
    }
  }

  /** Decoding undoes encoding under every order in which the table may have been reversed exactly
      when the value's name is its own. A name that reads as a number, or that the second table
      also lists, makes no difference. */
  lemma DecodeInvertsEncodeInAnyOrder(values: Names, def: int, i: int)
    requires i in values
    ensures (forall order, rev2 | Lists(order, values.Keys) ::
               Decode(Enum(values, Reversed(values, order), rev2, def), values[i]) == Ok(Some(i)))
            <==>
            (if values[i] == "" then i == def
             else forall k | k in values && values[k] == values[i] :: k == i)
  {
    if values[i] == "" {
      var order := OrderEndingIn(values.Keys, i);
      assert Decode(Enum(values, Reversed(values, order), map[], def), values[i]) == Ok(Some(def));
    } else {
      forall order, rev2 | Lists(order, values.Keys)
        ensures values[i] in Reversed(values, order)
        ensures var k := Reversed(values, order)[values[i]];
                && k in values && values[k] == values[i]
                && Decode(Enum(values, Reversed(values, order), rev2, def), values[i]) == Ok(Some(k))
      {
        ReversedIsReverse(values, order);
      }
      if k :| k in values && values[k] == values[i] && k != i {
        var order := OrderEndingIn(values.Keys, k);
        assert Reversed(values, order)[values[i]] == k;
        assert Decode(Enum(values, Reversed(values, order), map[], def), values[i]) == Ok(Some(k));
      }
    }
  }

  /** A name of the second table that is none of the first decodes to its number, under every order in
      which the two tables may have been reversed, exactly when no other number of the second has it. */
  lemma SecondNameDecodes(values: Names, values2: Names, def: int, k: int)
    requires k in values2 && values2[k] != "" && forall j | j in values :: values[j] != values2[k]
    ensures (forall order, order2 | Lists(order, values.Keys) && Lists(order2, values2.Keys) ::
               Decode(Enum(values, Reversed(values, order), Reversed(values2, order2), def), values2[k]) == Ok(Some(k)))
            <==>
            forall j | j in values2 && values2[j] == values2[k] :: j == k
  {
    forall order, order2 | Lists(order, values.Keys) && Lists(order2, values2.Keys)
      ensures var j := LastNumber(values2, order2, k);
              && j in values2 && values2[j] == values2[k]
              && Decode(Enum(values, Reversed(values, order), Reversed(values2, order2), def), values2[k]) == Ok(Some(j))
    {
      SecondTableIsRead(values, values2, def, order, order2, k);
    }
    if j :| j in values2 && values2[j] == values2[k] && j != k {
      var order, order2 := SomeOrder(values.Keys), OrderEndingIn(values2.Keys, j);
      assert LastNumber(values2, order2, k) == j;
      assert Decode(Enum(values, Reversed(values, order), Reversed(values2, order2), def), values2[k]) == Ok(Some(j));
    }
  }

  /** The number that the table reversed in this order gives the name of k. */
  ghost function LastNumber(values: Names, order: seq<int>, k: int): int
    requires k in values && forall i | i in order :: i in values
  {
    var rev := Reversed(values, order);
    if values[k] in rev then rev[values[k]] else k
  }

  lemma SecondTableIsRead(values: Names, values2: Names, def: int, order: seq<int>, order2: seq<int>, k: int)
    requires Lists(order, values.Keys) && Lists(order2, values2.Keys)
    requires k in values2 && values2[k] != "" && forall j | j in values :: values[j] != values2[k]
    ensures var j := LastNumber(values2, order2, k);
            && j in values2 && values2[j] == values2[k]
            && Decode(Enum(values, Reversed(values, order), Reversed(values2, order2), def), values2[k]) == Ok(Some(j))
  {
    ReversedIsReverse(values, order);
    ReversedIsReverse(values2, order2);
  }

  /** A text that is no name of either table is read as a decimal number, and the empty text as the
      default. */
  lemma OtherTextDecodes(values: Names, values2: Names, def: int, order: seq<int>, order2: seq<int>, s: string)
    requires Lists(order, values.Keys) && Lists(order2, values2.Keys)
    requires forall j | j in values :: values[j] != s
    requires forall j | j in values2 :: values2[j] != s
    ensures var r := Decode(Enum(values, Reversed(values, order), Reversed(values2, order2), def), s);
            && (s == "" ==> r == Ok(Some(def)))
            && (forall n | Fits(W64, n) && s == Itoa(n) :: r == Ok(Some(n)))
            && (s != "" && Atoi(s).None? ==> r == Err(TypeMismatch))
  {
    ReversedIsReverse(values, order);
    ReversedIsReverse(values2, order2);
    forall n | Fits(W64, n) && s == Itoa(n)
      ensures Atoi(s) == Some(n)
    {
      AtoiInvertsItoa(n);
    }
  }

  /** The empty text of an enum is its default, whatever its tables; of any other field it is nil. */
  lemma EmptyTextDecodes(c: Codec)
    ensures Decode(c, "") == Ok(if c.Enum? then Some(c.def) else None)
  {
  }

  // ---------- comma-joined lists ----------

  /** The items decoded left to right; the first failure wins. A nil item is read through. */
  function DecodeItems(c: Codec, parts: seq<string>): Result<seq<int>> {
    if parts == [] then Ok([])
    else
      match DecodeItems(c, parts[..|parts| - 1])
      case Err(e) => Err(e)
      case Ok(items) =>
        match Decode(c, parts[|parts| - 1])
        case Err(e) => Err(e)
        case Ok(None) => Err(Panic)
        case Ok(Some(v)) => Ok(items + [Wrap(W32, v)])
  }

  function EncodeItems(c: Codec, items: seq<int>): (r: Result<seq<string>>)
    ensures r.Ok? ==> |r.value| == |items|
  {
    if items == [] then Ok([])
    else
      match EncodeItems(c, items[..|items| - 1])
      case Err(e) => Err(e)
      case Ok(parts) =>
        match Encode(c, Some(items[|items| - 1]))
        case Err(e) => Err(e)
        case Ok(p) => Ok(parts + [p])
  }

  /** The text a list field is really read from. */
  function EffectiveText(mi: ManualInfo, value: string): string {
    if value == "" && mi.isDefaultSet then mi.defaultString else value
  }

  function ParseList(mi: ManualInfo, value: string): Result<seq<int>> {
    var text := EffectiveText(mi, value);
    if text == mi.emptySlice then Ok([]) else DecodeItems(mi.codec, Split(text, ','))
  }

  function PrintList(mi: ManualInfo, items: seq<int>): Result<string> {
    if items == [] then Ok(mi.emptySlice)
    else
      match EncodeItems(mi.codec, items)
      case Err(e) => Err(e)
      case Ok(parts) => Ok(Join(parts, ','))
  }

  method StringToIntSlice(manual: map<string, ManualInfo>, field: string, value: string)
    returns (result: Result<seq<int>>)
    ensures result == if field in manual then ParseList(manual[field], value) else Err(Other)
  {
    if field !in manual {
      return Err(Other);
    }
    var mi := manual[field];
    var text := value;
    if value == "" && mi.isDefaultSet {
      text := mi.defaultString;
    }
    if text == mi.emptySlice {
      return Ok([]);
    }
    var parts := Split(text, ',');
    var items: seq<int> := [];
    for i := 0 to |parts|
      invariant DecodeItems(mi.codec, parts[..i]) == Ok(items)
    {
      DecodeItemsNext(mi.codec, parts, i);
      var v := Decode(mi.codec, parts[i]);
      if v.Err? || v.value.None? {
        DecodeItemsFails(mi.codec, parts, i + 1);
        return Err(if v.Err? then v.error else Panic);
      }
      items := items + [Wrap(W32, v.value.value)];
    }
    assert parts[..|parts|] == parts;
    return Ok(items);
  }

  lemma DecodeItemsNext(c: Codec, parts: seq<string>, i: nat)
    requires i < |parts| && DecodeItems(c, parts[..i]).Ok?
    ensures DecodeItems(c, parts[..i + 1]) ==
            match Decode(c, parts[i])
            case Err(e) => Err(e)
            case Ok(None) => Err(Panic)
            case Ok(Some(v)) => Ok(DecodeItems(c, parts[..i]).value + [Wrap(W32, v)])
  {
    assert parts[..i + 1][..i] == parts[..i];
  }

  lemma {:induction false} DecodeItemsFails(c: Codec, parts: seq<string>, n: nat)
    requires n <= |parts| && DecodeItems(c, parts[..n]).Err?
    ensures DecodeItems(c, parts) == DecodeItems(c, parts[..n])
    decreases |parts|
  {
    if n < |parts| {
      var front := parts[..|parts| - 1];
      assert front[..n] == parts[..n];
      DecodeItemsFails(c, front, n);
    } else {
      assert parts[..n] == parts;
    }
  }

  method IntSliceToString(manual: map<string, ManualInfo>, field: string, items: seq<int>)
    returns (result: Result<string>)
    ensures result == if field in manual then PrintList(manual[field], items) else Err(Other)
  {
    if field !in manual {
      return Err(Other);
    }
    var mi := manual[field];
    if items == [] {
      return Ok(mi.emptySlice);
    }
    var text := "";
    ghost var parts: seq<string> := [];
    for i := 0 to |items|
      invariant EncodeItems(mi.codec, items[..i]) == Ok(parts)
      invariant i > 0 ==> text == Join(parts, ',')
      invariant i == 0 ==> text == ""
    {
      assert items[..i + 1][..i] == items[..i];
      if i > 0 {
        text := text + ",";
      }
      var val := Encode(mi.codec, Some(items[i]));
      if val.Err? {
        EncodeItemsFails(mi.codec, items, i + 1);
        return Err(val.error);
      }
      text := text + val.value;
      if i > 0 {
        JoinSnoc(parts, val.value, ',');
      }
      parts := parts + [val.value];
    }
    assert items[..|items|] == items;
    return Ok(text);
  }

  lemma {:induction false} EncodeItemsFails(c: Codec, items: seq<int>, n: nat)
    requires n <= |items| && EncodeItems(c, items[..n]).Err?
    ensures EncodeItems(c, items) == EncodeItems(c, items[..n])
    decreases |items|
  {
    if n < |items| {
      var front := items[..|items| - 1];
      assert front[..n] == items[..n];
      EncodeItemsFails(c, front, n);
    } else {
      assert items[..n] == items;
    }
  }

  lemma {:induction false} JoinSnoc(parts: seq<string>, p: string, sep: char)
    requires |parts| > 0
    ensures Join(parts + [p], sep) == Join(parts, sep) + [sep] + p
  {
    if |parts| > 1 {
      JoinSnoc(parts[1..], p, sep);
      assert (parts + [p])[1..] == parts[1..] + [p];
    }
  }

  /** An int32 whose text is its own, not empty and free of commas. */
  predicate ListItem(c: Codec, i: int) {
    && Fits(W32, i)
    && TrueName(c, i)
    && (c.Enum? ==> c.values[i] != "" && ',' !in c.values[i])
  }

  lemma ItemRoundTrip(c: Codec, i: int)
    requires CodecOk(c) && ListItem(c, i)
    ensures Encode(c, Some(i)).Ok?
    ensures Encode(c, Some(i)).value != "" && ',' !in Encode(c, Some(i)).value
    ensures Decode(c, Encode(c, Some(i)).value) == Ok(Some(i))
  {
    DecodeInvertsEncode(c, i);
  }

  lemma {:induction false} ItemsRoundTrip(c: Codec, items: seq<int>)
    requires CodecOk(c) && forall i | i in items :: ListItem(c, i)
    ensures EncodeItems(c, items).Ok?
    ensures forall p | p in EncodeItems(c, items).value :: p != "" && ',' !in p
    ensures DecodeItems(c, EncodeItems(c, items).value) == Ok(items)
    decreases |items|
  {
    if items != [] {
      var front, last := items[..|items| - 1], items[|items| - 1];
      assert items == front + [last];
      assert ListItem(c, last);
      ItemsRoundTrip(c, front);
      ItemRoundTrip(c, last);
      EncodeSnoc(c, front, last);
      DecodeSnoc(c, EncodeItems(c, front).value, Encode(c, Some(last)).value, front, last);
    }
  }

  lemma EncodeSnoc(c: Codec, front: seq<int>, last: int)
    requires EncodeItems(c, front).Ok? && Encode(c, Some(last)).Ok?
    ensures EncodeItems(c, front + [last]) ==
            Ok(EncodeItems(c, front).value + [Encode(c, Some(last)).value])
  {
  }

  lemma DecodeSnoc(c: Codec, parts: seq<string>, text: string, front: seq<int>, last: int)
    requires DecodeItems(c, parts) == Ok(front)
    requires Decode(c, text) == Ok(Some(last)) && Fits(W32, last)
    ensures DecodeItems(c, parts + [text]) == Ok(front + [last])
  {
  }

  /** Printing a list and reading it back gives the list exactly when its text is not taken for
      the empty list (and the empty list's own text is not replaced by another default). */
  lemma ListRoundTrip(mi: ManualInfo, items: seq<int>)
    requires CodecOk(mi.codec) && forall i | i in items :: ListItem(mi.codec, i)
    ensures PrintList(mi, items).Ok?
    ensures ParseList(mi, PrintList(mi, items).value) == Ok(items) <==>
            if items == [] then EffectiveText(mi, mi.emptySlice) == mi.emptySlice
            else PrintList(mi, items).value != mi.emptySlice
  {
    if items == [] {
      var text := EffectiveText(mi, mi.emptySlice);
      if text != mi.emptySlice {
        DecodeItemsExact(mi.codec, Split(text, ','));
      }
    } else {
      ItemsRoundTrip(mi.codec, items);
      var parts := EncodeItems(mi.codec, items).value;
      assert parts[0] in parts;
      SplitInvertsJoin(parts, ',');
      assert PrintList(mi, items).value != "";
    }
  }

  /** The text is read as a number. */
  predicate Numeric(c: Codec, s: string) {
    Decode(c, s).Ok? && Decode(c, s).value.Some?
  }

  predicate AllNumeric(c: Codec, parts: seq<string>) {
    forall k | 0 <= k < |parts| :: Numeric(c, parts[k])
  }

  /** The numbers of the parts, each truncated to 32 bits. */
  predicate Numbers(c: Codec, parts: seq<string>, items: seq<int>) {
    && |items| == |parts|
    && forall k | 0 <= k < |parts| :: Numeric(c, parts[k]) && items[k] == Wrap(W32, Decode(c, parts[k]).value.value)
  }

  lemma AllNumericSnoc(c: Codec, front: seq<string>, last: string)
    ensures AllNumeric(c, front + [last]) <==> AllNumeric(c, front) && Numeric(c, last)
  {
    var parts := front + [last];
    assert parts[|front|] == last;
    assert forall k | 0 <= k < |front| :: front[k] == parts[k];
  }

  lemma {:induction false} DecodeItemsExact(c: Codec, parts: seq<string>)
    ensures DecodeItems(c, parts).Ok? <==> AllNumeric(c, parts)
    ensures DecodeItems(c, parts).Ok? ==> Numbers(c, parts, DecodeItems(c, parts).value)
  {
    if parts != [] {
      var front, last := parts[..|parts| - 1], parts[|parts| - 1];
      DecodeItemsExact(c, front);
      assert parts == front + [last];
      AllNumericSnoc(c, front, last);
    }
  }

  /** A text, or the default text in place of an empty one, is the empty list if it is the marker, and
      else parses exactly when each item between commas is read as a number. */
  lemma ListParsesExactly(mi: ManualInfo, value: string)
    ensures var text := if value == "" && mi.isDefaultSet then mi.defaultString else value;
            var r := ParseList(mi, value);
            if text == mi.emptySlice then r == Ok([])
            else
              && (r.Ok? <==> AllNumeric(mi.codec, Split(text, ',')))
              && (r.Ok? ==> Numbers(mi.codec, Split(text, ','), r.value))
  {
    DecodeItemsExact(mi.codec, Split(EffectiveText(mi, value), ','));
  }

  /** Reading, printing and reading again changes nothing, for a table of distinct, non-empty,
      comma-free names whose joins are not mistaken for the empty list. */
  lemma ReprintIsStable(mi: ManualInfo, value: string)
    requires Faithful(mi.codec)
    requires mi.codec.Enum? ==> forall k | k in mi.codec.values :: ',' !in mi.codec.values[k]
    requires ParseList(mi, value).Ok? && PrintList(mi, ParseList(mi, value).value).Ok?
    requires EffectiveText(mi, mi.emptySlice) == mi.emptySlice
    requires ParseList(mi, value).value != [] ==>
               PrintList(mi, ParseList(mi, value).value).value != mi.emptySlice
    ensures ParseList(mi, PrintList(mi, ParseList(mi, value).value).value) == ParseList(mi, value)
  {
    var items := ParseList(mi, value).value;
    if items != [] {
      DecodeItemsExact(mi.codec, Split(EffectiveText(mi, value), ','));
      PrintableItems(mi.codec, items);
    }
    ListRoundTrip(mi, items);
  }

  lemma PrintableItems(c: Codec, items: seq<int>)
    requires Faithful(c)
    requires c.Enum? ==> forall k | k in c.values :: ',' !in c.values[k]
    requires forall i | i in items :: Fits(W32, i)
    requires EncodeItems(c, items).Ok?
    ensures forall i | i in items :: ListItem(c, i)
  {
    EncodedItemsAreNamed(c, items);
    forall i | i in items
      ensures ListItem(c, i)
    {
      PrintableItem(c, i);
    }
  }

  lemma PrintableItem(c: Codec, i: int)
    requires Faithful(c) && Printable(c, i) && Fits(W32, i)
    requires c.Enum? ==> forall k | k in c.values :: ',' !in c.values[k]
    ensures ListItem(c, i)
  {
    DecodeInvertsEncode(c, i);
  }

  lemma {:induction false} EncodedItemsAreNamed(c: Codec, items: seq<int>)
    requires EncodeItems(c, items).Ok?
    ensures forall i | i in items :: Printable(c, i)
  {
    if items != [] {
      EncodedItemsAreNamed(c, items[..|items| - 1]);
    }
  }
}
