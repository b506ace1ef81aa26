/** The registry of settings fields (yandex/dynamic_fields.go): what is recorded by hand per field,
    which struct types were added, and the index from a field name to the types that have it. */
module FieldsInfo {
  import opened GoText
  import opened FieldCodec
  import opened Slots

  /** One state of the registry. */
  datatype Info = Info(
    manual: map<string, ManualInfo>,
    types: map<StructType, map<string, FieldInfo>>,
    names: map<string, seq<StructType>>,
    disableBackToNil: bool
  )

  // ---------- accessors ----------

  predicate Skip(info: Info, field: string) {
    field in info.manual && info.manual[field].skip
  }

  predicate IsStringable(info: Info, field: string) {
    field in info.manual && info.manual[field].isStringable
  }

  function GetDefault(info: Info, field: string): Option<int> {
    if field in info.manual && info.manual[field].isDefaultSet
    then info.manual[field].defaultInt else None
  }

  predicate BackToNil(info: Info, field: string) {
    && !(field in info.manual && info.manual[field].isNotNullable)
    && !info.disableBackToNil
  }

  function CodecOf(info: Info, field: string): Codec {
    if field in info.manual then info.manual[field].codec else Plain
  }

  predicate InBounds(info: Info, field: string, i: int) {
    field in info.manual ==>
      && (info.manual[field].minInt.Some? ==> info.manual[field].minInt.value <= i)
      && (info.manual[field].maxInt.Some? ==> i <= info.manual[field].maxInt.value)
  }

  /** intCheckSetValue; the checks for the other types only look at nil. */
  function IntCheckSetValue(info: Info, field: string, v: Option<int>): Option<Error> {
    match v
    case None => NilCheck(info, field, true)
    case Some(i) => if InBounds(info, field, i) then None else Some(Other)
  }

  function NilCheck(info: Info, field: string, isNil: bool): Option<Error> {
    if isNil && !BackToNil(info, field) then Some(NilNotAllowed) else None
  }

  function GetFields(info: Info, t: StructType): map<string, FieldInfo> {
    if t in info.types then info.types[t] else map[]
  }

  function GetType(info: Info, t: StructType, field: string): Option<FieldInfo> {
    if field in GetFields(info, t) then Some(GetFields(info, t)[field]) else None
  }

  /** defaultStringOfEnumsCheck */
  function EnumsCheck(info: Info, fieldName: string, s: string): Option<Error> {
    if s == "" then None else EnumItemsCheck(info, fieldName, Split(s, ','))
  }

  function EnumItemsCheck(info: Info, fieldName: string, parts: seq<string>): Option<Error> {
    if parts == [] then None
    else
      match Decode(CodecOf(info, fieldName), parts[0])
      case Err(e) => Some(e)
      case Ok(v) =>
        match IntCheckSetValue(info, fieldName, v)
        case Some(e) => Some(e)
        case None => EnumItemsCheck(info, fieldName, parts[1..])
  }

  function RunCheck(info: Info, check: Check, s: string): Option<Error> {
    match check
    case NamesOf(field) => EnumsCheck(info, field, s)
    case CheckWith(f) => f(s)
  }

  // ---------- what the registry promises ----------

  /** What the adders guarantee about a manual entry. */
  ghost predicate ManualOk(mi: ManualInfo) {
    && CodecOk(mi.codec)
    && (mi.codec.Enum? <==> mi.isStringable)
    && (mi.codec.Enum? ==> mi.isDefaultSet && mi.isNotNullable && mi.defaultInt == Some(mi.codec.def))
  }

  /** The types of the history that have a field of this name, oldest first. */
  function Listing(history: seq<StructType>, k: string): seq<StructType> {
    if history == [] then []
    else
      var front, last := history[..|history| - 1], history[|history| - 1];
      if k in FieldsOf(last.fields) then Listing(front, k) + [last] else Listing(front, k)
  }

  /** The registry's two tables after adding the types of the history in turn. */
  ghost predicate Registered(info: Info, history: seq<StructType>) {
    && (forall t :: t in info.types <==> t in history)
    && (forall t | t in info.types :: info.types[t] == FieldsOf(t.fields))
    && (forall k :: k in info.names <==> Listing(history, k) != [])
    && (forall k | k in info.names :: info.names[k] == Listing(history, k))
  }

  /** Type and field name are indexed both ways, and no name is listed without a type. */
  ghost predicate Indexed(info: Info) {
    && (forall t | t in info.types :: info.types[t] == FieldsOf(t.fields))
    && (forall k | k in info.names :: info.names[k] != [])
    && (forall k, t | k in info.names && t in info.names[k] :: t in info.types && k in info.types[t])
    && (forall t, k | t in info.types && k in info.types[t] :: k in info.names && t in info.names[k])
  }

  lemma {:induction false} ListingExact(history: seq<StructType>, k: string)
    ensures forall t :: t in Listing(history, k) <==> t in history && k in FieldsOf(t.fields)
  {
    if history != [] {
      var front, last := history[..|history| - 1], history[|history| - 1];
      ListingExact(front, k);
      assert history == front + [last];
    }
  }

  /** After any sequence of additions, a type is listed under a name exactly when its field table
      has that name, and no listed name is without a type. */
  lemma RegistryIsIndexed(info: Info, history: seq<StructType>)
    requires Registered(info, history)
    ensures Indexed(info)
  {
    forall k
      ensures forall t :: t in Listing(history, k) <==> t in history && k in FieldsOf(t.fields)
    {
      ListingExact(history, k);
    }
    forall t, k | t in info.types && k in info.types[t]
      ensures k in info.names && t in info.names[k]
    {
      assert t in Listing(history, k);
    }
  }

  /** The index after listing t under each of the names in `done`. */
  function Listed(names: map<string, seq<StructType>>, done: set<string>, t: StructType)
    : map<string, seq<StructType>>
  {
    map k | k in names.Keys + done ::
      var l := if k in names then names[k] else [];
      if k in done then l + [t] else l
  }

  lemma ListedOneMore(names: map<string, seq<StructType>>, done: set<string>, t: StructType, k: string)
    requires k !in done
    ensures Listed(names, done + {k}, t) ==
            Listed(names, done, t)[k := if k in names then names[k] + [t] else [t]]
    ensures k in Listed(names, done, t) <==> k in names
    ensures k in names ==> Listed(names, done, t)[k] == names[k]
  {
    assert [] + [t] == [t];
  }

  function WithType(info: Info, t: StructType): Info {
    info.(types := info.types[t := FieldsOf(t.fields)],
          names := Listed(info.names, FieldsOf(t.fields).Keys, t))
  }

  lemma WithTypeIsRegistered(info: Info, history: seq<StructType>, t: StructType)
    requires Registered(info, history)
    ensures Registered(WithType(info, t), history + [t])
  {
  }

  class ObjectFieldsInfo {
    var fieldsManual: map<string, ManualInfo>
    var fieldsReflect: map<StructType, map<string, FieldInfo>>
    var nameFieldsType: map<string, seq<StructType>>
    var disableBackToNil: bool
    ghost var added: seq<StructType>

    function Snapshot(): Info
      reads this
    {
      Info(fieldsManual, fieldsReflect, nameFieldsType, disableBackToNil)
    }

    ghost predicate Valid()
      reads this
    {
      && Registered(Snapshot(), added)
      && (forall k | k in fieldsManual :: ManualOk(fieldsManual[k]))
    }

    constructor ()
      ensures Valid() && added == []
      ensures Snapshot() == Info(map[], map[], map[], false)
    {
      fieldsManual, fieldsReflect, nameFieldsType := map[], map[], map[];
      disableBackToNil := false;
      added := [];
    }

    /** `order` is the order in which Go ranges over the new type's field table. */
    method AddType(t: StructType, order: seq<string>)
      requires Valid() && Lists(order, FieldsOf(t.fields).Keys)
      modifies this
      ensures Valid() && added == old(added) + [t]
      ensures Snapshot() == WithType(old(Snapshot()), t)
    {
      var fis := GetFieldsInfo(t);
      fieldsReflect := fieldsReflect[t := fis];
      IndexType(t, fis, order);
      added := added + [t];
      WithTypeIsRegistered(old(Snapshot()), old(added), t);
    }

    method IndexType(t: StructType, fis: map<string, FieldInfo>, order: seq<string>)
      requires Lists(order, fis.Keys)
      modifies this`nameFieldsType
      ensures nameFieldsType == Listed(old(nameFieldsType), fis.Keys, t)
    {
      ghost var done: set<string> := {};
      assert Listed(nameFieldsType, done, t) == nameFieldsType;
      for i := 0 to |order|
        invariant forall k :: k in done <==> k in order[..i]
        invariant nameFieldsType == Listed(old(nameFieldsType), done, t)
      {
        var k := order[i];
        assert order[..i + 1] == order[..i] + [k];
        ListedOneMore(old(nameFieldsType), done, t, k);
        done := done + {k};
        if k in nameFieldsType {
          nameFieldsType := nameFieldsType[k := nameFieldsType[k] + [t]];
        } else {
          nameFieldsType := nameFieldsType[k := [t]];
        }
      }
      assert order[..|order|] == order;
      assert done == fis.Keys;
    }

    method AddIDefault(field: string, def: int)
      requires Valid()
      modifies this`fieldsManual
      ensures Valid()
      ensures fieldsManual == old(fieldsManual)[field := PLAIN_ENTRY.(defaultInt := Some(def), isDefaultSet := true)]
    {
      fieldsManual := fieldsManual[field := PLAIN_ENTRY.(defaultInt := Some(def), isDefaultSet := true)];
    }

    /** `order` is the order in which Go ranges over the names while reversing them. */
    method AddEnumGeneratedNames(field: string, values: Names, order: seq<int>)
      requires Valid() && Lists(order, values.Keys)
      modifies this`fieldsManual
      ensures Valid()
      ensures fieldsManual == old(fieldsManual)[field := EnumEntry(values, Reversed(values, order), map[])]
    {
      var rev := ReverseNames(values, order);
      fieldsManual := fieldsManual[field := EnumEntry(values, rev, map[])];
    }

    method AddEnumHumanNames(field: string, values: Names, order: seq<int>, values2: Names, order2: seq<int>)
      requires Valid() && Lists(order, values.Keys) && Lists(order2, values2.Keys)
      modifies this`fieldsManual
      ensures Valid()
      ensures fieldsManual == old(fieldsManual)[field :=
                EnumEntry(values, Reversed(values, order), Reversed(values2, order2))]
    {
      var rev := ReverseNames(values, order);
      var rev2 := ReverseNames(values2, order2);
      fieldsManual := fieldsManual[field := EnumEntry(values, rev, rev2)];
    }

    method AddSkipEnumGeneratedNames(field: string, values: Names, order: seq<int>, check: Option<Check>,
                                     compare: Option<(string, string) -> bool>)
      requires Valid() && Lists(order, values.Keys)
      modifies this`fieldsManual
      ensures Valid()
      ensures fieldsManual == old(fieldsManual)[field :=
                EnumEntry(values, Reversed(values, order), map[])
                .(skip := true, check := check, compare := compare)]
    {
      var rev := ReverseNames(values, order);
      fieldsManual := fieldsManual[field := EnumEntry(values, rev, map[])
                      .(skip := true, check := check, compare := compare)];
    }
  }

  const PLAIN_ENTRY: ManualInfo :=
    ManualInfo(Plain, None, "", false, None, None, false, false, false, "", None, None)

  function EnumEntry(values: Names, rev: map<string, int>, rev2: map<string, int>): ManualInfo {
    PLAIN_ENTRY.(codec := Enum(values, rev, rev2, 0), defaultInt := Some(0), isDefaultSet := true,
                isStringable := true, isNotNullable := true)
  }

  /** What an enum field is recorded with: it defaults to zero, also where its text is empty, never goes
      back to nil, and has no bounds, check or comparison. */
  lemma EnumEntryMeans(info: Info, field: string, values: Names, rev: map<string, int>, rev2: map<string, int>)
    ensures var after := info.(manual := info.manual[field := EnumEntry(values, rev, rev2)]);
            && GetDefault(after, field) == Some(0) && Decode(CodecOf(after, field), "") == Ok(Some(0))
            && !BackToNil(after, field) && !Skip(after, field) && IsStringable(after, field)
            && (forall i :: InBounds(after, field, i))
            && after.manual[field].check.None? && after.manual[field].compare.None?
    ensures var skipping := info.(manual := info.manual[field := EnumEntry(values, rev, rev2).(skip := true)]);
            Skip(skipping, field)
  {
  }

  /** A plain entry with a default: only the default is known of the field. */
  lemma DefaultEntryMeans(info: Info, field: string, def: int)
    ensures var after := info.(manual := info.manual[field := PLAIN_ENTRY.(defaultInt := Some(def), isDefaultSet := true)]);
            && GetDefault(after, field) == Some(def) && CodecOf(after, field) == Plain
            && BackToNil(after, field) == !info.disableBackToNil
            && !Skip(after, field) && !IsStringable(after, field) && (forall i :: InBounds(after, field, i))
            && after.manual[field].check.None? && after.manual[field].compare.None?
  {
  }

  /** A list of names that passes the check is read without an error, provided the empty text
      stands for the empty list. */
  lemma CheckedListParses(info: Info, field: string, s: string)
    requires field in info.manual && info.manual[field].codec.Enum?
    requires EnumsCheck(info, field, s).None?
    requires s == "" && info.manual[field].isDefaultSet ==>
               info.manual[field].defaultString == info.manual[field].emptySlice
    ensures ParseList(info.manual[field], s).Ok?
  {
    var mi := info.manual[field];
    var text := EffectiveText(mi, s);
    if text != mi.emptySlice {
      if s != "" {
        CheckedItemsDecode(info, field, Split(s, ','));
      } else {
        SplitParts(s, ',');
        assert DecodeItems(mi.codec, []) == Ok([]);
      }
    }
  }

  lemma {:induction false} CheckedItemsDecode(info: Info, field: string, parts: seq<string>)
    requires CodecOf(info, field).Enum?
    requires EnumItemsCheck(info, field, parts).None?
    ensures DecodeItems(CodecOf(info, field), parts).Ok?
  {
    ChecksEach(info, field, parts);
    DecodesAll(CodecOf(info, field), parts);
  }

  lemma {:induction false} ChecksEach(info: Info, field: string, parts: seq<string>)
    requires CodecOf(info, field).Enum?
    requires EnumItemsCheck(info, field, parts).None?
    ensures forall p | p in parts :: Decode(CodecOf(info, field), p).Ok? && Decode(CodecOf(info, field), p).value.Some?
  {
    if parts != [] {
      ChecksEach(info, field, parts[1..]);
      assert parts == [parts[0]] + parts[1..];
    }
  }

  lemma {:induction false} DecodesAll(c: Codec, parts: seq<string>)
    requires forall p | p in parts :: Decode(c, p).Ok? && Decode(c, p).value.Some?
    ensures DecodeItems(c, parts).Ok?
  {
    if parts != [] {
      DecodesAll(c, parts[..|parts| - 1]);
      assert parts[|parts| - 1] in parts;
    }
  }
}
