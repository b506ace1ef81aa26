/** What validate, diff-suppress, expand and flatten promise each other. */
module CodecProperties {
  import opened GoText
  import opened FieldCodec
  import opened Slots
  import opened FieldsInfo
  import opened DynamicFields

  // ---------- shared hypotheses ----------

  /** Every registered type that has the field gives it the same value type. */
  ghost predicate Uniform(info: Info, field: string, vt: ValueType) {
    && field in info.names && info.names[field] != []
    && forall t | t in info.names[field] ::
         GetType(info, t, field).Some? && GetType(info, t, field).value.valueType == vt
  }

  predicate NoHooks(info: Info, field: string) {
    field in info.manual ==> info.manual[field].check.None? && info.manual[field].compare.None?
  }

  ghost predicate ManualFieldOk(info: Info, field: string) {
    field in info.manual ==> ManualOk(info.manual[field])
  }

  function AsValues(m: map<string, string>): map<string, Value> {
    map k | k in m :: VString(m[k])
  }

  // ---------- diff suppression decides equality of values ----------

  predicate ScalarEq(a: Scalar, b: Scalar) {
    if a.SFloat? && b.SFloat? then FloatEq(a.f, b.f) else a == b
  }

  /** Both texts mean something, and the same thing. */
  predicate MeanTheSame(ops: FloatOps, info: Info, field: string, vt: ValueType, a: string, b: string) {
    var x, y := DecodeText(ops, info, field, vt, a), DecodeText(ops, info, field, vt, b);
    x.Ok? && y.Ok? && x.value.Some? && y.value.Some? && ScalarEq(x.value.value, y.value.value)
  }

  lemma CheckSuppressCompares(ops: FloatOps, info: Info, field: string, was: string, new_: string, t: StructType)
    requires new_ != ""
    ensures CheckSuppress(ops, info, field, was, new_, t) <==>
            GetType(info, t, field).Some?
            && MeanTheSame(ops, info, field, GetType(info, t, field).value.valueType, was, new_)
  {
  }

  /** A change to a non-empty value is suppressed exactly when some registered type reads the old
      and the new text as equal values. */
  lemma SuppressionDecidesEquality(ops: FloatOps, info: Info, key: string, was: string, new_: string)
    requires NoHooks(info, LastPart(key)) && LastPart(key) in info.names && new_ != ""
    ensures Suppressed(ops, info, key, was, new_) <==>
            exists t :: t in info.names[LastPart(key)] && GetType(info, t, LastPart(key)).Some?
              && MeanTheSame(ops, info, LastPart(key), GetType(info, t, LastPart(key)).value.valueType, was, new_)
  {
  }

  lemma SuppressedIffSame(ops: FloatOps, info: Info, key: string, vt: ValueType, was: string, new_: string)
    requires NoHooks(info, LastPart(key)) && Uniform(info, LastPart(key), vt) && new_ != ""
    ensures Suppressed(ops, info, key, was, new_) <==> MeanTheSame(ops, info, LastPart(key), vt, was, new_)
  {
    SuppressionDecidesEquality(ops, info, key, was, new_);
    assert info.names[LastPart(key)][0] in info.names[LastPart(key)];
  }

  /** On a uniformly typed field, suppression is symmetric and transitive over non-empty texts, and a
      text is related to itself exactly when it can be read and is not NaN. */
  lemma SuppressionIsEquivalence(ops: FloatOps, info: Info, key: string, vt: ValueType, a: string, b: string, c: string)
    requires NoHooks(info, LastPart(key)) && Uniform(info, LastPart(key), vt)
    requires a != "" && b != "" && c != ""
    ensures var x := DecodeText(ops, info, LastPart(key), vt, a);
            Suppressed(ops, info, key, a, a) <==> x.Ok? && x.value != Some(SFloat(NaN))
    ensures Suppressed(ops, info, key, a, b) <==> Suppressed(ops, info, key, b, a)
    ensures Suppressed(ops, info, key, a, b) && Suppressed(ops, info, key, b, c) ==> Suppressed(ops, info, key, a, c)
  {
    SuppressedIffSame(ops, info, key, vt, a, a);
    SuppressedIffSame(ops, info, key, vt, a, b);
    SuppressedIffSame(ops, info, key, vt, b, a);
    SuppressedIffSame(ops, info, key, vt, b, c);
    SuppressedIffSame(ops, info, key, vt, a, c);
  }

  /** What is suppressed besides: a field's own comparison has the last word; an empty new text never
      differs; a field of no registered type differs by its text. */
  lemma SuppressionOtherwise(ops: FloatOps, info: Info, key: string, was: string, new_: string)
    ensures var field := LastPart(key);
            var own := if field in info.manual then info.manual[field].compare else None;
            && (own.Some? ==> (Suppressed(ops, info, key, was, new_) <==> own.value(was, new_)))
            && (own.None? && new_ == "" ==> Suppressed(ops, info, key, was, new_))
            && (own.None? && new_ != "" && field !in info.names ==>
                  (Suppressed(ops, info, key, was, new_) <==> was == new_))
  {
  }

  /** The field of an attribute path is what follows the last dot. */
  lemma {:induction false} FieldOfPath(path: string, field: string)
    requires '.' !in field
    ensures LastPart(field) == field
    ensures LastPart(path + "." + field) == field && |Split(path + "." + field, '.')| > 1
  {
    SplitParts(field, '.');
    var s := path + "." + field;
    if path == "" {
      assert s[1..] == field;
    } else {
      assert s[1..] == path[1..] + "." + field;
      FieldOfPath(path[1..], field);
    }
  }

  /** The two zeros of a float are no difference. */
  lemma SignOfZeroSuppressed(ops: FloatOps, info: Info, key: string, a: string, b: string)
    requires NoHooks(info, LastPart(key)) && Uniform(info, LastPart(key), TypeFloat) && a != "" && b != ""
    requires ops.parse(a) == Some(NegZero) && ops.parse(b) == Some(Num(0))
    ensures Suppressed(ops, info, key, a, b) && Suppressed(ops, info, key, b, a)
  {
    SuppressedIffSame(ops, info, key, TypeFloat, a, b);
    SuppressedIffSame(ops, info, key, TypeFloat, b, a);
  }

  // ---------- validation ----------

  function ManualOf(info: Info, field: string): ManualInfo {
    if field in info.manual then info.manual[field] else PLAIN_ENTRY
  }

  /** The number is within the bounds recorded by hand. */
  predicate Within(mi: ManualInfo, i: int) {
    (mi.minInt.Some? ==> mi.minInt.value <= i) && (mi.maxInt.Some? ==> i <= mi.maxInt.value)
  }

  /** A text of a field without its own check is valid exactly when it is a string, or empty where the
      field may be nil, or is read as a value of the field's type, a number within bounds. */
  lemma ValidatesExactly(ops: FloatOps, info: Info, field: string, vt: ValueType, s: string)
    requires Uniform(info, field, vt) && NoHooks(info, field)
    ensures var mi := ManualOf(info, field);
            var nilAllowed := !mi.isNotNullable && !info.disableBackToNil;
            KeyVerdict(ops, info, field, s).None? <==>
            match vt
            case TypeInt =>
              if s == "" && mi.codec.Plain? then nilAllowed
              else exists i :: Decode(mi.codec, s) == Ok(Some(i)) && Within(mi, i)
            case TypeFloat => if s == "" then nilAllowed else ops.parse(s).Some?
            case TypeBool => if s == "" then nilAllowed else ParseBool(s).Some?
            case TypeString => true
  {
    TypesVerdictExact(ops, info, field, s, info.names[field], None);
    var t0 := info.names[field][0];
    assert t0 in info.names[field];
    forall t | t in info.names[field]
      ensures CheckValidate(ops, info, field, s, t) == CheckValidate(ops, info, field, s, t0)
    {
    }
    match vt {
      case TypeInt =>
      case TypeFloat =>
      case TypeBool =>
      case TypeString =>
    }
  }

  /** What is wrong with a text that is not valid: nil where it is not allowed, a number out of bounds, or
      a text that is no value of the type. */
  lemma ComplaintExact(ops: FloatOps, info: Info, field: string, vt: ValueType, s: string)
    requires Uniform(info, field, vt) && NoHooks(info, field) && KeyVerdict(ops, info, field, s).Some?
    ensures var x := DecodeText(ops, info, field, vt, s);
            KeyVerdict(ops, info, field, s) ==
            Some(CheckFailed(if x.Err? then TypeMismatch else if x.value.None? then NilNotAllowed else Other))
    ensures s == "" ==> KeyVerdict(ops, info, field, s) != Some(CheckFailed(TypeMismatch))
  {
    var tps := info.names[field];
    TypesVerdictExact(ops, info, field, s, tps, None);
    forall j | 0 <= j < |tps|
      ensures CheckValidate(ops, info, field, s, tps[j]) == CheckValidate(ops, info, field, s, tps[|tps| - 1])
    {
      assert tps[j] in tps && tps[|tps| - 1] in tps;
    }
    var last := CheckValidate(ops, info, field, s, tps[|tps| - 1]);
    assert last.Rejected? && last.error.Some?;
    LastErrorWins(ops, info, field, s, tps, |tps| - 1, last.error.value, None);
  }

  /** One item of a list of names: a number within bounds, or nil where the field may be nil. */
  predicate ItemAccepted(info: Info, field: string, item: string) {
    var mi := ManualOf(info, field);
    match Decode(mi.codec, item)
    case Err(_) => false
    case Ok(None) => !mi.isNotNullable && !info.disableBackToNil
    case Ok(Some(i)) => Within(mi, i)
  }

  /** A field's own check alone decides about its text; the enum-list check accepts the empty text and
      the lists all of whose items are accepted. */
  lemma OwnCheckDecides(ops: FloatOps, info: Info, field: string, s: string)
    requires field in info.manual && info.manual[field].check.Some?
    ensures KeyVerdict(ops, info, field, s).None? <==>
            var check := info.manual[field].check.value;
            if check.CheckWith? then check.check(s).None?
            else s == "" || forall item | item in Split(s, ',') :: ItemAccepted(info, check.field, item)
    ensures KeyVerdict(ops, info, field, s) != Some(UnsupportedKey)
    ensures KeyVerdict(ops, info, field, s) != Some(UnsupportedType)
  {
    var check := info.manual[field].check.value;
    if check.NamesOf? {
      ItemsAccepted(info, check.field, Split(s, ','));
    }
  }

  lemma {:induction false} ItemsAccepted(info: Info, field: string, parts: seq<string>)
    ensures EnumItemsCheck(info, field, parts).None? <==> forall item | item in parts :: ItemAccepted(info, field, item)
  {
    if parts != [] {
      ItemsAccepted(info, field, parts[1..]);
      OneItemAccepted(info, field, parts[0]);
      assert parts == [parts[0]] + parts[1..];
      assert EnumItemsCheck(info, field, parts).None? <==>
             EnumItemsCheck(info, field, [parts[0]]).None? && EnumItemsCheck(info, field, parts[1..]).None?;
    }
  }

  lemma OneItemAccepted(info: Info, field: string, item: string)
    ensures EnumItemsCheck(info, field, [item]).None? <==> ItemAccepted(info, field, item)
  {
    assert EnumItemsCheck(info, field, [item][1..]).None?;
  }

  /** When no type accepts, the error reported is that of the last type that gives one. */
  lemma {:induction false} LastErrorWins(ops: FloatOps, info: Info, field: string, value: string,
                                         tps: seq<StructType>, i: nat, e: Error, err: Option<Error>)
    requires i < |tps| && CheckValidate(ops, info, field, value, tps[i]) == Rejected(Some(e))
    requires forall j | 0 <= j < |tps| :: CheckValidate(ops, info, field, value, tps[j]).Rejected?
    requires forall j | i < j < |tps| :: CheckValidate(ops, info, field, value, tps[j]) == Rejected(None)
    ensures TypesVerdict(ops, info, field, value, tps, err) == Some(CheckFailed(e))
  {
    var own := CheckValidate(ops, info, field, value, tps[0]).error;
    assert forall j | 0 <= j < |tps| - 1 :: tps[1..][j] == tps[j + 1];
    if i > 0 {
      LastErrorWins(ops, info, field, value, tps[1..], i - 1, e, if own.Some? then own else err);
    } else {
      NoFurtherError(ops, info, field, value, tps[1..], e);
    }
  }

  lemma {:induction false} NoFurtherError(ops: FloatOps, info: Info, field: string, value: string,
                                          tps: seq<StructType>, e: Error)
    requires forall j | 0 <= j < |tps| :: CheckValidate(ops, info, field, value, tps[j]) == Rejected(None)
    ensures TypesVerdict(ops, info, field, value, tps, Some(e)) == Some(CheckFailed(e))
  {
    if tps != [] {
      assert forall j | 0 <= j < |tps| - 1 :: tps[1..][j] == tps[j + 1];
      NoFurtherError(ops, info, field, value, tps[1..], e);
    }
  }

  lemma {:induction false} TypesVerdictExact(ops: FloatOps, info: Info, field: string, value: string,
                                             tps: seq<StructType>, err: Option<Error>)
    ensures TypesVerdict(ops, info, field, value, tps, err).None? <==>
            exists t :: t in tps && CheckValidate(ops, info, field, value, t) == Accepted
    ensures (tps != [] || err.Some?) && (forall t | t in tps :: GetType(info, t, field).Some?) ==>
              TypesVerdict(ops, info, field, value, tps, err) != Some(UnsupportedType)
    ensures TypesVerdict(ops, info, field, value, tps, err) != Some(UnsupportedKey)
  {
    if tps != [] {
      assert tps == [tps[0]] + tps[1..];
      match CheckValidate(ops, info, field, value, tps[0]) {
        case Accepted =>
          assert tps[0] in tps;
        case Rejected(e) =>
          TypesVerdictExact(ops, info, field, value, tps[1..], if e.Some? then e else err);
      }
    }
  }

  /** With a registry kept by addType, no key is ever rejected for an "unsupported type". */
  lemma UnsupportedTypeUnreachable(ops: FloatOps, info: Info, field: string, value: string)
    requires Indexed(info)
    ensures KeyVerdict(ops, info, field, value) != Some(UnsupportedType)
    ensures NoHooks(info, field) ==>
              (KeyVerdict(ops, info, field, value) == Some(UnsupportedKey) <==>
               forall t | t in info.types :: field !in info.types[t])
  {
    if field in info.names {
      TypesVerdictExact(ops, info, field, value, info.names[field], None);
      assert info.names[field][0] in info.names[field];
    }
  }

  /** The text means nil: it unsets the field. */
  predicate MeansNil(info: Info, field: string, vt: ValueType, s: string) {
    s == "" && !vt.TypeString? && (vt.TypeInt? ==> CodecOf(info, field).Plain?)
  }

  /** A text passes validation exactly when it can be expanded into a slot of the field's type and,
      if it means nil, the field may be set back to nil. */
  lemma ValidIffExpandable(ops: FloatOps, info: Info, field: string, vt: ValueType, s: string, slot: Slot)
    requires Uniform(info, field, vt) && NoHooks(info, field)
    requires Classify(KindOf(slot)) == Some(vt)
    ensures KeyVerdict(ops, info, field, s).None? <==>
            ExpandSlot(ops, info, field, vt, slot, VString(s), true).Ok?
            && (MeansNil(info, field, vt, s) ==> BackToNil(info, field))
  {
    TypesVerdictExact(ops, info, field, s, info.names[field], None);
    var t0 := info.names[field][0];
    assert t0 in info.names[field];
    forall t | t in info.names[field]
      ensures CheckValidate(ops, info, field, s, t) == CheckValidate(ops, info, field, s, t0)
    {
    }
    ClassifiedKindsAreAccessible(ops, slot, vt);
    match vt {
      case TypeInt =>
      case TypeFloat =>
      case TypeBool =>
      case TypeString =>
    }
  }

  /** The hypotheses on a struct type and a map of settings that the map-level results share. */
  ghost predicate Applies(ops: FloatOps, info: Info, t: StructType, slots: map<string, Slot>) {
    && Indexed(info) && t in info.types && GoStruct(t) && ObjectOf(ops, t, slots)
    && forall k | k in info.manual :: ManualOk(info.manual[k])
  }

  function ExpansionOf(ops: FloatOps, info: Info, t: StructType, m: map<string, string>): Expansion {
    Expansion(ops, info, GetFields(info, t), AsValues(m), true)
  }

  /** The field table of a registered type lies on distinct slots of the right type. */
  lemma TableFits(ops: FloatOps, info: Info, t: StructType, slots: map<string, Slot>, m: map<string, string>)
    requires Applies(ops, info, t, slots)
    ensures ExpansionOf(ops, info, t, m).Fits(slots)
    ensures Typed(GetFields(info, t), slots)
  {
    TableDescribesFields(t.fields);
    var table := GetFields(info, t);
    forall k | k in table
      ensures table[k].name in slots && Classify(KindOf(slots[table[k].name])) == Some(table[k].valueType)
    {
      var f :| f in t.fields && Describes(f, k, FieldsOf(t.fields)[k]);
    }
  }

  /** Validation implies expansion: a map without complaints can be expanded into any registered
      type. When every key is a field the type expands, the two agree up to setting back to nil. */
  lemma ValidationImpliesExpansion(ops: FloatOps, info: Info, t: StructType, slots: map<string, Slot>, m: map<string, string>)
    requires Applies(ops, info, t, slots)
    requires forall k | k in m :: NoHooks(info, k)
    requires forall k | k in m && k in GetFields(info, t) :: Uniform(info, k, GetFields(info, t)[k].valueType)
    ensures ExpansionOf(ops, info, t, m).Fits(slots)
    ensures (forall k | k in m :: KeyVerdict(ops, info, k, m[k]).None?) ==>
              ExpansionOf(ops, info, t, m).Succeeds(slots)
    ensures (forall k | k in m :: ExpansionOf(ops, info, t, m).Present(k)) ==>
              ((forall k | k in m :: KeyVerdict(ops, info, k, m[k]).None?) <==>
               ExpansionOf(ops, info, t, m).Succeeds(slots)
               && forall k | k in m :: MeansNil(info, k, GetFields(info, t)[k].valueType, m[k]) ==> BackToNil(info, k))
  {
    var x := ExpansionOf(ops, info, t, m);
    TableFits(ops, info, t, slots, m);
    forall k | x.Present(k)
      ensures KeyVerdict(ops, info, k, m[k]).None? <==>
              x.FieldResult(slots, k).Ok?
              && (MeansNil(info, k, x.table[k].valueType, m[k]) ==> BackToNil(info, k))
    {
      ValidIffExpandable(ops, info, k, x.table[k].valueType, m[k], slots[x.table[k].name]);
    }
  }

  /** What one value does to a slot of its field's type. A typed value is stored, a number if it is
      within bounds; nil and a text that means nothing leave the slot alone under skipNil, and otherwise
      set it to nil if both the field and the slot allow it. */
  lemma ExpandedValue(ops: FloatOps, info: Info, field: string, vt: ValueType, slot: Slot, v: Value, skipNil: bool)
    requires Classify(KindOf(slot)) == Some(vt)
    ensures var r := ExpandSlot(ops, info, field, vt, slot, v, skipNil);
            var mi := ManualOf(info, field);
            var nilAllowed := !mi.isNotNullable && !info.disableBackToNil;
            var nullable := slot.Int64Value? || slot.BoolValue? || slot.DoubleValue?;
            && (v.VNil? && skipNil ==> r == Ok(slot))
            && (v.VNil? && !skipNil ==>
                  (r.Ok? <==> nilAllowed && nullable) && (r.Ok? ==> GetValue(r.value) == Ok(VNil)))
            && (v.VInt? ==>
                  (r.Ok? <==> vt.TypeInt? && Within(mi, v.i))
                  && (r.Ok? ==> GetValue(r.value) == Ok(VInt(Wrap(IntWidth(KindOf(slot)), v.i)))))
            && (v.VIntPtr? ==> r.Err?)
            && (v.VBool? ==> (r.Ok? <==> vt.TypeBool?) && (r.Ok? ==> GetValue(r.value) == Ok(v)))
            && (v.VFloat? ==>
                  (r.Ok? <==> vt.TypeFloat?)
                  && (r.Ok? ==> GetValue(r.value) == Ok(VFloat(if slot.Float32Slot? then ops.narrow(v.f) else v.f))))
            && (v == VString("") && (vt.TypeInt? ==> mi.codec.Plain?) && !vt.TypeString? ==>
                  r == ExpandSlot(ops, info, field, vt, slot, VNil, skipNil))
            && (v.VString? && vt.TypeString? ==> r == Ok(if v.s == "" && skipNil then slot else StringSlot(v.s)))
            && (r.Ok? ==> KindOf(r.value) == KindOf(slot))
  {
  }

  // ---------- what an expansion touches ----------

  /** After an expansion, the slot of every present field holds that field's own result, and no other
      slot has changed. */
  lemma WrittenExactly(x: Expansion, slots: map<string, Slot>)
    requires x.Fits(slots) && x.Succeeds(slots)
    ensures forall f | x.Present(f) :: x.Written(slots, x.table.Keys)[x.table[f].name] == x.FieldResult(slots, f).value
    ensures forall n | n in slots && (forall f | x.Present(f) :: x.table[f].name != n) ::
              x.Written(slots, x.table.Keys)[n] == slots[n]
  {
  }

  /** A field that is recorded as skipped is neither expanded nor flattened. */
  lemma SkippedIsLeftAlone(x: Expansion, slots: map<string, Slot>, o: FlattenOptions, k: string)
    requires x.Fits(slots) && x.Succeeds(slots) && Typed(x.table, slots)
    requires k in x.table && k in x.info.manual && x.info.manual[k].skip
    ensures x.Written(slots, x.table.Keys)[x.table[k].name] == slots[x.table[k].name]
    ensures k !in Flattened(x.info, o, x.table, slots)
  {
    OwnResult(x, slots, k);
  }

  /** Expanding the same configuration into equal messages in two iteration orders fails in both or
      gives equal messages, and the same fields are reported. */
  method ExpandInTwoOrders(ops: FloatOps, info: Info, cfg: map<string, Value>, typ: StructType,
                           slots: map<string, Slot>, skipNil: bool, order1: seq<string>, order2: seq<string>)
    returns (r1: Result<seq<string>>, slots1: map<string, Slot>, r2: Result<seq<string>>, slots2: map<string, Slot>)
    requires Expansion(ops, info, GetFields(info, typ), cfg, skipNil).Fits(slots)
    requires Lists(order1, GetFields(info, typ).Keys) && Lists(order2, GetFields(info, typ).Keys)
    ensures r1.Ok? <==> r2.Ok?
    ensures r1.Ok? ==> slots1 == slots2
    ensures r1.Ok? ==> forall f :: f in r1.value <==> f in r2.value
    ensures r1.Ok? ==> forall i, j :: 0 <= i < j < |r1.value| ==> r1.value[i] != r1.value[j]
  {
    var obj1 := new Message(typ, slots);
    var obj2 := new Message(typ, slots);
    r1 := ExpandNonSkippedFields(ops, info, cfg, obj1, skipNil, order1);
    r2 := ExpandNonSkippedFields(ops, info, cfg, obj2, skipNil, order2);
    slots1, slots2 := obj1.slots, obj2.slots;
  }

  // ---------- flatten, then expand ----------

  /** The flags the provider calls flatten with; collapsing is free. */
  predicate PlainFlags(o: FlattenOptions) {
    !o.includeNil && !o.useDefault
  }

  /** Flatten leaves the field out because it holds the default. */
  predicate Collapsed(info: Info, o: FlattenOptions, field: string, slot: Slot) {
    var v := GetValue(slot);
    v.Ok? && v.value.VInt? && o.Collapses(field) && GetDefault(info, field) == Some(v.value.i)
  }

  /** An integer in the slot has a text that leads back to it, or to another number within bounds that
      is truncated to it. */
  predicate IntComesBack(info: Info, field: string, slot: Slot) {
    var v := GetValue(slot);
    v.Ok? && v.value.VInt? ==>
      match ReadBack(CodecOf(info, field), v.value.i)
      case None => false
      case Some(j) => InBounds(info, field, j) && Wrap(IntWidth(KindOf(slot)), j) == v.value.i
  }

  function IntWidth(kind: Kind): Width {
    if kind.IntKind? then kind.w else W64
  }

  function TextOf(ops: FloatOps, row: Option<Value>): Option<string> {
    if row.Some? then ToText(ops, row.value) else None
  }

  lemma BoolTextReadsBack(b: bool)
    ensures FormatBool(b) != "" && ParseBool(FormatBool(b)) == Some(b)
  {
  }

  /** The text flattened for a slot expands a fresh slot to the same contents; where there is no
      text, the slot is zero or was left out as a default. */
  predicate ComesBack(ops: FloatOps, info: Info, o: FlattenOptions, field: string, slot: Slot, vt: ValueType)
    requires Classify(KindOf(slot)) == Some(vt)
  {
    var row := Row(info, o, field, vt, GetValue(slot).value);
    && row.Ok?
    && var text := TextOf(ops, row.value);
       && (row.value.None? <==> text.None?)
       && (Collapsed(info, o, field, slot) ==> text.None?)
       && match text
          case Some(s) => ExpandSlot(ops, info, field, vt, ZeroSlot(KindOf(slot)), VString(s), true) == Ok(slot)
          case None => slot == ZeroSlot(KindOf(slot)) || Collapsed(info, o, field, slot)
  }

  /** A slot comes back exactly when it is left out as a default or its integer comes back; every other
      slot does. */
  lemma SlotComesBack(ops: FloatOps, info: Info, o: FlattenOptions, field: string, slot: Slot, vt: ValueType)
    requires Lawful(ops) && SlotOk(ops, slot) && PlainFlags(o)
    requires Classify(KindOf(slot)) == Some(vt) && ManualFieldOk(info, field)
    ensures ComesBack(ops, info, o, field, slot, vt) <==> IntComesBack(info, field, slot) || Collapsed(info, o, field, slot)
  {
    match vt {
      case TypeInt => IntSlotComesBack(ops, info, o, field, slot);
      case TypeFloat => FloatSlotComesBack(ops, info, o, field, slot);
      case TypeBool =>
        var v := GetValue(slot).value;
        if v.VBool? {
          BoolTextReadsBack(v.b);
        }
      case TypeString =>
    }
  }

  lemma IntSlotComesBack(ops: FloatOps, info: Info, o: FlattenOptions, field: string, slot: Slot)
    requires SlotOk(ops, slot) && PlainFlags(o)
    requires Classify(KindOf(slot)) == Some(TypeInt) && ManualFieldOk(info, field)
    ensures ComesBack(ops, info, o, field, slot, TypeInt) <==>
            IntComesBack(info, field, slot) || Collapsed(info, o, field, slot)
  {
    var v := GetValue(slot).value;
    var c := CodecOf(info, field);
    if v.VInt? && !Collapsed(info, o, field, slot) && Printable(c, v.i) {
      IntRowText(ops, info, o, field, v.i);
      IntTextExpands(ops, info, field, slot, v.i);
    }
  }

  lemma IntRowText(ops: FloatOps, info: Info, o: FlattenOptions, field: string, i: int)
    requires ManualFieldOk(info, field) && Printable(CodecOf(info, field), i)
    requires !(o.Collapses(field) && GetDefault(info, field) == Some(i))
    ensures var row := Row(info, o, field, TypeInt, VInt(i));
            && row.Ok? && row.value.Some?
            && TextOf(ops, row.value) == Some(Encode(CodecOf(info, field), Some(i)).value)
  {
  }

  lemma IntTextExpands(ops: FloatOps, info: Info, field: string, slot: Slot, i: int)
    requires ManualFieldOk(info, field) && Printable(CodecOf(info, field), i)
    requires SlotOk(ops, slot) && Classify(KindOf(slot)) == Some(TypeInt) && GetValue(slot) == Ok(VInt(i))
    ensures ExpandSlot(ops, info, field, TypeInt, ZeroSlot(KindOf(slot)),
                       VString(Encode(CodecOf(info, field), Some(i)).value), true) == Ok(slot)
            <==> IntComesBack(info, field, slot)
  {
    var c := CodecOf(info, field);
    DecodeInvertsEncode(c, i);
    var j := ReadBack(c, i).value;
    IntTextIntoZero(ops, info, field, KindOf(slot), Encode(c, Some(i)).value, j);
    ZeroTakes(slot, i, j);
  }

  lemma IntTextIntoZero(ops: FloatOps, info: Info, field: string, kind: Kind, s: string, j: int)
    requires Decode(CodecOf(info, field), s) == Ok(Some(j))
    ensures ExpandSlot(ops, info, field, TypeInt, ZeroSlot(kind), VString(s), true) ==
            if InBounds(info, field, j) then SetInt(ZeroSlot(kind), Some(j)) else Err(Other)
  {
  }

  lemma ZeroTakes(slot: Slot, i: int, j: int)
    requires Classify(KindOf(slot)) == Some(TypeInt) && GetValue(slot) == Ok(VInt(i))
    ensures SetInt(ZeroSlot(KindOf(slot)), Some(j)) == Ok(slot) <==> Wrap(IntWidth(KindOf(slot)), j) == i
  {
  }

  lemma FloatSlotComesBack(ops: FloatOps, info: Info, o: FlattenOptions, field: string, slot: Slot)
    requires Lawful(ops) && SlotOk(ops, slot) && PlainFlags(o)
    requires Classify(KindOf(slot)) == Some(TypeFloat)
    ensures ComesBack(ops, info, o, field, slot, TypeFloat)
  {
    var v := GetValue(slot).value;
    if v.VFloat? {
      assert DecodeText(ops, info, field, TypeFloat, ops.format(v.f)) == Ok(Some(SFloat(v.f)));
    }
  }

  ghost function FlattenedText(ops: FloatOps, info: Info, o: FlattenOptions, t: StructType, slots: map<string, Slot>)
    : map<string, string>
    requires Typed(GetFields(info, t), slots)
  {
    Texts(ops, Flattened(info, o, GetFields(info, t), slots))
  }

  function ZeroSlots(slots: map<string, Slot>): map<string, Slot> {
    map n | n in slots :: ZeroSlot(KindOf(slots[n]))
  }

  /** Flattening succeeds, expanding the texts into a fresh message succeeds, and every field that is
      not skipped is what it was, except that one left out as a default is the zero of its kind. */
  ghost predicate MessageComesBack(ops: FloatOps, info: Info, o: FlattenOptions, t: StructType, slots: map<string, Slot>)
    requires Typed(GetFields(info, t), slots)
  {
    var x := ExpansionOf(ops, info, t, FlattenedText(ops, info, o, t, slots));
    && FlattenSucceeds(info, o, GetFields(info, t), slots)
    && x.Fits(ZeroSlots(slots)) && x.Succeeds(ZeroSlots(slots))
    && (forall k | k in x.table && !Skip(info, k) ::
          var n := x.table[k].name;
          x.Written(ZeroSlots(slots), x.table.Keys)[n] ==
          if Collapsed(info, o, k, slots[n]) then ZeroSlot(KindOf(slots[n])) else slots[n])
  }

  /** A message comes back exactly when each integer does that is not skipped or left out. */
  lemma FlattenThenExpand(ops: FloatOps, info: Info, o: FlattenOptions, t: StructType, slots: map<string, Slot>)
    requires Lawful(ops) && PlainFlags(o) && Applies(ops, info, t, slots)
    ensures Typed(GetFields(info, t), slots)
    ensures MessageComesBack(ops, info, o, t, slots) <==>
            forall k | k in GetFields(info, t) && !Skip(info, k) ::
              var slot := slots[GetFields(info, t)[k].name];
              IntComesBack(info, k, slot) || Collapsed(info, o, k, slot)
  {
    TableFits(ops, info, t, slots, map[]);
    var table := GetFields(info, t);
    forall k | k in table && !Skip(info, k)
      ensures var slot := slots[table[k].name];
              ComesBack(ops, info, o, k, slot, table[k].valueType) <==>
              IntComesBack(info, k, slot) || Collapsed(info, o, k, slot)
    {
      SlotComesBack(ops, info, o, k, slots[table[k].name], table[k].valueType);
    }
    if forall k | k in table && !Skip(info, k) :: ComesBack(ops, info, o, k, slots[table[k].name], table[k].valueType) {
      SlotsMakeTheMessage(ops, info, o, t, slots);
    }
    if MessageComesBack(ops, info, o, t, slots) {
      forall k | k in table && !Skip(info, k)
        ensures ComesBack(ops, info, o, k, slots[table[k].name], table[k].valueType)
      {
        MessageMadeOfSlots(ops, info, o, t, slots, k);
      }
    }
  }

  lemma SlotsMakeTheMessage(ops: FloatOps, info: Info, o: FlattenOptions, t: StructType, slots: map<string, Slot>)
    requires Applies(ops, info, t, slots) && Typed(GetFields(info, t), slots)
    requires forall k | k in GetFields(info, t) && !Skip(info, k) ::
               ComesBack(ops, info, o, k, slots[GetFields(info, t)[k].name], GetFields(info, t)[k].valueType)
    ensures MessageComesBack(ops, info, o, t, slots)
  {
    var table, m, zero := GetFields(info, t), FlattenedText(ops, info, o, t, slots), ZeroSlots(slots);
    var x := ExpansionOf(ops, info, t, m);
    TableFits(ops, info, t, slots, m);
    assert x.Fits(zero);
    forall k | k in table && !Skip(info, k)
      ensures FieldRow(info, o, table, slots, k).Ok?
      ensures k in m ==> x.FieldResult(zero, k) == Ok(slots[table[k].name]) && !Collapsed(info, o, k, slots[table[k].name])
      ensures k !in m ==> slots[table[k].name] == zero[table[k].name] || Collapsed(info, o, k, slots[table[k].name])
    {
      assert ComesBack(ops, info, o, k, slots[table[k].name], table[k].valueType);
      TextsByRow(ops, info, o, table, slots, k);
    }
    assert x.Succeeds(zero);
    forall k | k in table && !Skip(info, k)
      ensures x.Written(zero, table.Keys)[table[k].name] ==
              if k in m then x.FieldResult(zero, k).value else zero[table[k].name]
    {
      OwnResult(x, zero, k);
    }
  }

  lemma MessageMadeOfSlots(ops: FloatOps, info: Info, o: FlattenOptions, t: StructType, slots: map<string, Slot>, k: string)
    requires PlainFlags(o) && Typed(GetFields(info, t), slots)
    requires MessageComesBack(ops, info, o, t, slots)
    requires k in GetFields(info, t) && !Skip(info, k)
    ensures ComesBack(ops, info, o, k, slots[GetFields(info, t)[k].name], GetFields(info, t)[k].valueType)
  {
    var table, m, zero := GetFields(info, t), FlattenedText(ops, info, o, t, slots), ZeroSlots(slots);
    var x := ExpansionOf(ops, info, t, m);
    var slot := slots[table[k].name];
    PlainRowText(ops, info, o, k, slot, table[k].valueType);
    TextsByRow(ops, info, o, table, slots, k);
    OwnResult(x, zero, k);
  }

  /** With the plain flags, whatever a row stores has a text, and a default that is left out has none. */
  lemma PlainRowText(ops: FloatOps, info: Info, o: FlattenOptions, field: string, slot: Slot, vt: ValueType)
    requires PlainFlags(o) && Classify(KindOf(slot)) == Some(vt)
    ensures var row := Row(info, o, field, vt, GetValue(slot).value);
            row.Ok? ==>
              && (row.value.None? <==> TextOf(ops, row.value).None?)
              && (Collapsed(info, o, field, slot) ==> row.value.None?)
  {
  }

  lemma OwnResult(x: Expansion, slots: map<string, Slot>, f: string)
    requires x.Fits(slots) && x.Succeeds(slots) && f in x.table
    ensures x.Written(slots, x.table.Keys)[x.table[f].name] ==
            if x.Present(f) then x.FieldResult(slots, f).value else slots[x.table[f].name]
  {
    WrittenExactly(x, slots);
  }

  /** With collapsing off or every default zero in a slot that cannot be nil, the message comes back
      exactly; and a collapsed field is lost exactly when its slot is not already zero. */
  lemma CollapsedFieldIsLost(info: Info, o: FlattenOptions, field: string, slot: Slot)
    requires Collapsed(info, o, field, slot)
    ensures slot == ZeroSlot(KindOf(slot)) <==> !slot.Int64Value? && GetDefault(info, field) == Some(0)
    ensures slot.Int64Value? ==> slot.int64 == GetDefault(info, field)
  {
  }

  /** The text flattened for one entry of the table, if any. */
  function RowText(ops: FloatOps, info: Info, o: FlattenOptions, table: map<string, FieldInfo>, slots: map<string, Slot>, k: string)
    : Option<string>
    requires k in table && table[k].name in slots
    requires Classify(KindOf(slots[table[k].name])) == Some(table[k].valueType)
  {
    var row := FieldRow(info, o, table, slots, k);
    if Skip(info, k) || row.Err? then None else TextOf(ops, row.value)
  }

  lemma TextsByRow(ops: FloatOps, info: Info, o: FlattenOptions, table: map<string, FieldInfo>, slots: map<string, Slot>, k: string)
    requires Typed(table, slots) && k in table
    ensures var texts := Texts(ops, Flattened(info, o, table, slots));
            && (k in texts <==> RowText(ops, info, o, table, slots, k).Some?)
            && (k in texts ==> RowText(ops, info, o, table, slots, k) == Some(texts[k]))
  {
  }

  lemma DefaultTextIsLost(ops: FloatOps, info: Info, on: FlattenOptions, off: FlattenOptions,
                          table: map<string, FieldInfo>, slots: map<string, Slot>, k: string)
    requires Typed(table, slots) && k in table
    requires on == off.(useDefault := true)
    ensures RowText(ops, info, on, table, slots, k) == RowText(ops, info, off, table, slots, k)
  {
  }

  /** With includeNil, nil fields and empty strings are stored too, and everything else is as without. */
  lemma NilsIncluded(info: Info, o: FlattenOptions, field: string, vt: ValueType, v: Value)
    requires PlainFlags(o) && (v.VNil? || HasType(v, vt))
    ensures Row(info, o.(includeNil := true), field, vt, v) ==
            if v.VNil? || v == VString("") then Ok(Some(v)) else Row(info, o, field, vt, v)
    ensures v.VNil? ==> Row(info, o, field, vt, v) == Ok(None)
  {
  }

  /** A number equal to the recorded default, or an empty string, is left out exactly when collapsing is on
      and the field is not among those known to hold their default. */
  lemma DefaultsCollapse(info: Info, o: FlattenOptions, field: string, vt: ValueType, v: Value)
    requires PlainFlags(o) && HasType(v, vt)
    ensures var mi := ManualOf(info, field);
            var isDefault := v == VString("") || (v.VInt? && mi.isDefaultSet && mi.defaultInt == Some(v.i));
            var known := o.knownDefault.Some? && field in o.knownDefault.value;
            Row(info, o, field, vt, v) == Ok(None) <==> isDefault && o.collapseDefault && !known
  {
  }

  /** With useDefault, a nil number with a default is stored as a pointer to it. */
  lemma DefaultsIncluded(info: Info, o: FlattenOptions, field: string, vt: ValueType, v: Value)
    requires !o.useDefault && (v.VNil? || HasType(v, vt))
    ensures Row(info, o.(useDefault := true), field, vt, v) ==
            if v.VNil? && vt.TypeInt? && ManualOf(info, field).isDefaultSet && ManualOf(info, field).defaultInt.Some?
            then Ok(Some(VIntPtr(ManualOf(info, field).defaultInt))) else Row(info, o, field, vt, v)
  {
  }

  /** The defaults that useDefault inserts never reach the map of texts. */
  lemma UseDefaultIsLost(ops: FloatOps, info: Info, on: FlattenOptions, off: FlattenOptions,
                         table: map<string, FieldInfo>, slots: map<string, Slot>)
    requires Typed(table, slots)
    requires on == off.(useDefault := true)
    ensures Texts(ops, Flattened(info, on, table, slots)) == Texts(ops, Flattened(info, off, table, slots))
  {
    forall k | k in table
      ensures RowText(ops, info, on, table, slots, k) == RowText(ops, info, off, table, slots, k)
    {
      DefaultTextIsLost(ops, info, on, off, table, slots, k);
    }
    SameRowTexts(ops, info, on, off, table, slots);
  }

  lemma SameRowTexts(ops: FloatOps, info: Info, o1: FlattenOptions, o2: FlattenOptions,
                     table: map<string, FieldInfo>, slots: map<string, Slot>)
    requires Typed(table, slots)
    requires forall k | k in table :: RowText(ops, info, o1, table, slots, k) == RowText(ops, info, o2, table, slots, k)
    ensures Texts(ops, Flattened(info, o1, table, slots)) == Texts(ops, Flattened(info, o2, table, slots))
  {
    forall k | k in table
      ensures var t1 := Texts(ops, Flattened(info, o1, table, slots));
              var t2 := Texts(ops, Flattened(info, o2, table, slots));
              (k in t1 <==> k in t2) && (k in t1 ==> t1[k] == t2[k])
    {
      TextsByRow(ops, info, o1, table, slots, k);
      TextsByRow(ops, info, o2, table, slots, k);
    }
  }

  // ---------- no perpetual diff ----------

  /** The condition, on the configured text alone, under which applying it leaves no diff: the text of
      the integer the slot holds leads back to the one configured (where it is left out as a default,
      it is the same one and belongs to an enum), and a float survives the slot's precision. */
  predicate Settles(ops: FloatOps, info: Info, o: FlattenOptions, field: string, kind: Kind, vt: ValueType, s: string) {
    var x := DecodeText(ops, info, field, vt, s);
    x.Ok? && x.value.Some? &&
    match x.value.value
    case SInt(i) =>
      var held := Wrap(IntWidth(kind), i);
      if o.Collapses(field) && GetDefault(info, field) == Some(held)
      then CodecOf(info, field).Enum? && held == i
      else ReadBack(CodecOf(info, field), held) == Some(i)
    case SFloat(f) => FloatEq(if kind.Float32Kind? then ops.narrow(f) else f, f)
    case _ => true
  }

  /** With distinct, non-empty names an integer settles exactly when it fits the slot and has a name,
      if names it needs; as a collapsed default, only that of an enum. */
  lemma FaithfulSettles(ops: FloatOps, info: Info, o: FlattenOptions, field: string, kind: Kind, s: string, i: int)
    requires Faithful(CodecOf(info, field)) && Classify(kind) == Some(TypeInt)
    requires DecodeText(ops, info, field, TypeInt, s) == Ok(Some(SInt(i)))
    ensures Settles(ops, info, o, field, kind, TypeInt, s) <==>
            && Fits(IntWidth(kind), i)
            && (if o.Collapses(field) && GetDefault(info, field) == Some(i) then CodecOf(info, field).Enum?
                else Printable(CodecOf(info, field), i))
  {
    var c, held := CodecOf(info, field), Wrap(IntWidth(kind), i);
    if Printable(c, held) {
      DecodeInvertsEncode(c, held);
    }
  }

  /** After expanding s and flattening the slot again, the diff is suppressed. */
  predicate Quiet(ops: FloatOps, info: Info, o: FlattenOptions, key: string, vt: ValueType, slot: Slot, s: string)
    requires Classify(KindOf(slot)) == Some(vt)
  {
    var row := Row(info, o, LastPart(key), vt, GetValue(slot).value);
    && row.Ok?
    && var text := TextOf(ops, row.value);
       Suppressed(ops, info, key, if text.Some? then text.value else "", s)
  }

  /** A non-empty validated text leaves no diff behind exactly when it settles. */
  lemma NoPerpetualDiff(ops: FloatOps, info: Info, o: FlattenOptions, key: string, kind: Kind, vt: ValueType, s: string)
    requires Lawful(ops) && PlainFlags(o) && Classify(kind) == Some(vt)
    requires Uniform(info, LastPart(key), vt) && NoHooks(info, LastPart(key))
    requires ManualFieldOk(info, LastPart(key))
    requires s != "" && KeyVerdict(ops, info, LastPart(key), s).None?
    ensures var r := ExpandSlot(ops, info, LastPart(key), vt, ZeroSlot(kind), VString(s), true);
            && r.Ok? && KindOf(r.value) == kind
            && (Quiet(ops, info, o, key, vt, r.value, s) <==> Settles(ops, info, o, LastPart(key), kind, vt, s))
  {
    var x, slot := ExpandedScalar(ops, info, LastPart(key), kind, vt, s);
    match vt {
      case TypeInt => IntDiff(ops, info, o, key, kind, x.i, s, slot);
      case TypeFloat => FloatDiff(ops, info, o, key, kind, x.f, s, slot);
      case TypeBool => BoolDiff(ops, info, o, key, kind, x.b, s, slot);
      case TypeString => SuppressedIffSame(ops, info, key, vt, s, s);
    }
  }

  /** A valid text is read, and the fresh slot takes its value. */
  lemma ExpandedScalar(ops: FloatOps, info: Info, field: string, kind: Kind, vt: ValueType, s: string)
    returns (x: Scalar, slot: Slot)
    requires Lawful(ops) && Classify(kind) == Some(vt)
    requires Uniform(info, field, vt) && NoHooks(info, field)
    requires s != "" && KeyVerdict(ops, info, field, s).None?
    ensures DecodeText(ops, info, field, vt, s) == Ok(Some(x))
    ensures ExpandSlot(ops, info, field, vt, ZeroSlot(kind), VString(s), true) == Ok(slot)
    ensures KindOf(slot) == kind
    ensures match vt
            case TypeInt => x.SInt? && GetValue(slot) == Ok(VInt(Wrap(IntWidth(kind), x.i)))
            case TypeFloat => x.SFloat? && GetValue(slot) == Ok(VFloat(if kind.Float32Kind? then ops.narrow(x.f) else x.f))
            case TypeBool => x.SBool? && GetValue(slot) == Ok(VBool(x.b))
            case TypeString => x == SString(s) && GetValue(slot) == Ok(VString(s))
  {
    ValidIffExpandable(ops, info, field, vt, s, ZeroSlot(kind));
    x := DecodeText(ops, info, field, vt, s).value.value;
    slot := ExpandSlot(ops, info, field, vt, ZeroSlot(kind), VString(s), true).value;
    assert Assign(ops, ZeroSlot(kind), Some(x), vt) == Ok(slot);
  }

  lemma FloatDiff(ops: FloatOps, info: Info, o: FlattenOptions, key: string, kind: Kind, f: Float, s: string, slot: Slot)
    requires Lawful(ops) && PlainFlags(o)
    requires Classify(kind) == Some(TypeFloat) && Classify(KindOf(slot)) == Some(TypeFloat)
    requires Uniform(info, LastPart(key), TypeFloat) && NoHooks(info, LastPart(key))
    requires s != "" && DecodeText(ops, info, LastPart(key), TypeFloat, s) == Ok(Some(SFloat(f)))
    requires GetValue(slot) == Ok(VFloat(if kind.Float32Kind? then ops.narrow(f) else f))
    ensures Quiet(ops, info, o, key, TypeFloat, slot, s) <==> Settles(ops, info, o, LastPart(key), kind, TypeFloat, s)
  {
    var g := GetValue(slot).value.f;
    SuppressedIffSame(ops, info, key, TypeFloat, ops.format(g), s);
    if !f.NaN? {
      assert !g.NaN?;
      assert DecodeText(ops, info, LastPart(key), TypeFloat, ops.format(g)) == Ok(Some(SFloat(g)));
    }
  }

  lemma BoolDiff(ops: FloatOps, info: Info, o: FlattenOptions, key: string, kind: Kind, b: bool, s: string, slot: Slot)
    requires PlainFlags(o) && Classify(kind) == Some(TypeBool) && Classify(KindOf(slot)) == Some(TypeBool)
    requires Uniform(info, LastPart(key), TypeBool) && NoHooks(info, LastPart(key))
    requires s != "" && DecodeText(ops, info, LastPart(key), TypeBool, s) == Ok(Some(SBool(b)))
    requires GetValue(slot) == Ok(VBool(b))
    ensures Quiet(ops, info, o, key, TypeBool, slot, s) <==> Settles(ops, info, o, LastPart(key), kind, TypeBool, s)
  {
    BoolTextReadsBack(b);
    SuppressedIffSame(ops, info, key, TypeBool, FormatBool(b), s);
  }

  lemma IntDiff(ops: FloatOps, info: Info, o: FlattenOptions, key: string, kind: Kind, i: int, s: string, slot: Slot)
    requires PlainFlags(o) && Classify(kind) == Some(TypeInt) && Classify(KindOf(slot)) == Some(TypeInt)
    requires Uniform(info, LastPart(key), TypeInt) && NoHooks(info, LastPart(key))
    requires ManualFieldOk(info, LastPart(key))
    requires s != "" && DecodeText(ops, info, LastPart(key), TypeInt, s) == Ok(Some(SInt(i)))
    requires GetValue(slot) == Ok(VInt(Wrap(IntWidth(kind), i)))
    ensures Quiet(ops, info, o, key, TypeInt, slot, s) <==> Settles(ops, info, o, LastPart(key), kind, TypeInt, s)
  {
    var field, w := LastPart(key), Wrap(IntWidth(kind), i);
    var c := CodecOf(info, field);
    if o.Collapses(field) && GetDefault(info, field) == Some(w) {
      SuppressedIffSame(ops, info, key, TypeInt, "", s);
    } else if Printable(c, w) {
      PrintedIntDiff(ops, info, o, key, i, s, slot, w);
    } else {
      assert Row(info, o, field, TypeInt, VInt(w)).Err?;
    }
  }

  lemma PrintedIntDiff(ops: FloatOps, info: Info, o: FlattenOptions, key: string, i: int, s: string, slot: Slot, w: int)
    requires PlainFlags(o) && Classify(KindOf(slot)) == Some(TypeInt)
    requires Uniform(info, LastPart(key), TypeInt) && NoHooks(info, LastPart(key))
    requires ManualFieldOk(info, LastPart(key))
    requires s != "" && DecodeText(ops, info, LastPart(key), TypeInt, s) == Ok(Some(SInt(i)))
    requires GetValue(slot) == Ok(VInt(w)) && Fits(W64, w) && Printable(CodecOf(info, LastPart(key)), w)
    requires !(o.Collapses(LastPart(key)) && GetDefault(info, LastPart(key)) == Some(w))
    ensures Quiet(ops, info, o, key, TypeInt, slot, s) <==> ReadBack(CodecOf(info, LastPart(key)), w) == Some(i)
  {
    var field := LastPart(key);
    var c := CodecOf(info, field);
    DecodeInvertsEncode(c, w);
    IntRowText(ops, info, o, field, w);
    SuppressedIffSame(ops, info, key, TypeInt, Encode(c, Some(w)).value, s);
  }

  /** A registry of one struct type with one integer field, whose default was added by addIDefault. */
  function Sample(field: string, kind: Kind, def: int): Info {
    var t := StructType("Config", [StructField("Field", Some(field), kind)]);
    Info(map[field := PLAIN_ENTRY.(defaultInt := Some(def), isDefaultSet := true)],
         map[t := map[field := FieldInfo("Field", TypeInt)]], map[field := [t]], false)
  }

  /** Settling cannot be left out, first case: -1 validates, but it is the default that flattening
      collapses. */
  lemma CollapsedDefaultStaysDifferent(ops: FloatOps, o: FlattenOptions, field: string, s: string)
    requires Lawful(ops) && PlainFlags(o) && '.' !in field && o.Collapses(field)
    requires Atoi(s) == Some(-1)
    ensures var info := Sample(field, Int64ValueKind, -1);
            var r := ExpandSlot(ops, info, field, TypeInt, ZeroSlot(Int64ValueKind), VString(s), true);
            && KeyVerdict(ops, info, field, s).None? && r == Ok(Int64Value(Some(-1)))
            && !Quiet(ops, info, o, field, TypeInt, r.value, s)
  {
    SampleApplies(ops, o, field, Int64ValueKind, -1, -1, s);
  }

  /** Second case: 2147483648 validates, but an int32 slot holds -2147483648. */
  lemma TruncatedIntStaysDifferent(ops: FloatOps, o: FlattenOptions, field: string, s: string)
    requires Lawful(ops) && PlainFlags(o) && '.' !in field
    requires Atoi(s) == Some(2147483648)
    ensures var info := Sample(field, IntKind(W32), 0);
            var r := ExpandSlot(ops, info, field, TypeInt, ZeroSlot(IntKind(W32)), VString(s), true);
            && KeyVerdict(ops, info, field, s).None? && r == Ok(IntSlot(W32, -2147483648))
            && !Quiet(ops, info, o, field, TypeInt, r.value, s)
  {
    TruncatedTwoToThe31();
    SampleApplies(ops, o, field, IntKind(W32), 0, 2147483648, s);
    var slot := ExpandSlot(ops, Sample(field, IntKind(W32), 0), field, TypeInt, ZeroSlot(IntKind(W32)), VString(s), true).value;
    assert slot.IntSlot?;
  }

  lemma TruncatedTwoToThe31()
    ensures Wrap(W32, 2147483648) == -2147483648
    ensures !Fits(W32, 2147483648)
  {
  }

  lemma SampleApplies(ops: FloatOps, o: FlattenOptions, field: string, kind: Kind, def: int, n: int, s: string)
    requires Lawful(ops) && PlainFlags(o) && '.' !in field && Classify(kind) == Some(TypeInt)
    requires Atoi(s) == Some(n)
    ensures var info := Sample(field, kind, def);
            var r := ExpandSlot(ops, info, field, TypeInt, ZeroSlot(kind), VString(s), true);
            && KeyVerdict(ops, info, field, s).None?
            && r.Ok? && KindOf(r.value) == kind && GetValue(r.value) == Ok(VInt(Wrap(IntWidth(kind), n)))
            && (Quiet(ops, info, o, field, TypeInt, r.value, s) <==>
                Fits(IntWidth(kind), n) && !(o.Collapses(field) && n == def))
  {
    var info := Sample(field, kind, def);
    var t := info.names[field][0];
    SplitParts(field, '.');
    assert LastPart(field) == field;
    assert Decode(CodecOf(info, field), s) == Ok(Some(n));
    assert CheckValidate(ops, info, field, s, t) == Accepted;
    TypesVerdictExact(ops, info, field, s, [t], None);
    NoPerpetualDiff(ops, info, o, field, kind, TypeInt, s);
    var x, slot := ExpandedScalar(ops, info, field, kind, TypeInt, s);
  }

  // ---------- whole maps ----------

  /** A map of settings that validates, for a fresh message of a registered type. */
  ghost predicate ValidMap(ops: FloatOps, info: Info, t: StructType, slots: map<string, Slot>, m: map<string, string>) {
    && Applies(ops, info, t, slots) && slots == ZeroSlots(slots)
    && (forall k | k in m :: NoHooks(info, k) && KeyVerdict(ops, info, k, m[k]).None?)
    && (forall k | k in m && k in GetFields(info, t) :: Uniform(info, k, GetFields(info, t)[k].valueType))
  }

  lemma ValidMapExpands(ops: FloatOps, info: Info, t: StructType, slots: map<string, Slot>, m: map<string, string>)
    requires ValidMap(ops, info, t, slots, m)
    ensures var x := ExpansionOf(ops, info, t, m);
            && x.Fits(slots) && x.Succeeds(slots)
            && Typed(x.table, slots) && Typed(x.table, x.Written(slots, x.table.Keys))
  {
    ValidationImpliesExpansion(ops, info, t, slots, m);
    TableFits(ops, info, t, slots, m);
    KindsKept(ExpansionOf(ops, info, t, m), slots);
  }

  /** The number an integer field holds after m is expanded into a fresh message; None is nil. */
  function NumberHeld(info: Info, field: string, kind: Kind, m: map<string, string>): Option<int> {
    var n := if field in m then Decode(CodecOf(info, field), m[field]) else Ok(None);
    if n.Ok? && n.value.Some? then Some(Wrap(IntWidth(kind), n.value.value))
    else if kind.Int64ValueKind? then None
    else Some(0)
  }

  predicate NumberFlattens(info: Info, o: FlattenOptions, field: string, held: Option<int>) {
    held.Some? ==>
      || (o.Collapses(field) && GetDefault(info, field) == held)
      || Printable(CodecOf(info, field), held.value)
  }

  /** Every integer field, set or not, is left nil, or holds its collapsed default, or a number that has
      a name if it needs one. */
  ghost predicate NumbersFlatten(info: Info, o: FlattenOptions, t: StructType, slots: map<string, Slot>, m: map<string, string>)
    requires Typed(GetFields(info, t), slots)
  {
    var table := GetFields(info, t);
    forall k | k in table && !Skip(info, k) && table[k].valueType.TypeInt? ::
      NumberFlattens(info, o, k, NumberHeld(info, k, KindOf(slots[table[k].name]), m))
  }

  /** A validated map, expanded, flattens exactly when its numbers do. */
  lemma FlattensIffNumbersDo(ops: FloatOps, info: Info, o: FlattenOptions, t: StructType, slots: map<string, Slot>,
                             m: map<string, string>)
    requires PlainFlags(o) && ValidMap(ops, info, t, slots, m)
    ensures var x := ExpansionOf(ops, info, t, m);
            && x.Fits(slots) && Typed(x.table, slots) && Typed(x.table, x.Written(slots, x.table.Keys))
            && (FlattenSucceeds(info, o, x.table, x.Written(slots, x.table.Keys)) <==>
                NumbersFlatten(info, o, t, slots, m))
  {
    ValidMapExpands(ops, info, t, slots, m);
    var x := ExpansionOf(ops, info, t, m);
    var after := x.Written(slots, x.table.Keys);
    forall k | k in x.table && !Skip(info, k)
      ensures FieldRow(info, o, x.table, after, k).Ok? <==>
              (x.table[k].valueType.TypeInt? ==>
                 NumberFlattens(info, o, k, NumberHeld(info, k, KindOf(slots[x.table[k].name]), m)))
    {
      OwnResult(x, slots, k);
      if x.table[k].valueType.TypeInt? {
        HeldAfter(x, slots, m, k);
        IntRowOk(info, o, k, after[x.table[k].name]);
      }
    }
  }

  lemma HeldAfter(x: Expansion, slots: map<string, Slot>, m: map<string, string>, k: string)
    requires x.cfg == AsValues(m) && x.skipNil
    requires x.Fits(slots) && x.Succeeds(slots) && Typed(x.table, slots) && slots == ZeroSlots(slots)
    requires k in x.table && !Skip(x.info, k) && x.table[k].valueType.TypeInt?
    ensures var n := x.table[k].name;
            var held := NumberHeld(x.info, k, KindOf(slots[n]), m);
            GetValue(x.Written(slots, x.table.Keys)[n]) == Ok(if held.None? then VNil else VInt(held.value))
  {
    var slot := slots[x.table[k].name];
    assert slot == ZeroSlot(KindOf(slot));
    OwnResult(x, slots, k);
    if k in m {
      HeldInZero(x.ops, x.info, k, KindOf(slot), m);
    }
  }

  lemma HeldInZero(ops: FloatOps, info: Info, field: string, kind: Kind, m: map<string, string>)
    requires field in m && Classify(kind) == Some(TypeInt)
    requires ExpandSlot(ops, info, field, TypeInt, ZeroSlot(kind), VString(m[field]), true).Ok?
    ensures var held := NumberHeld(info, field, kind, m);
            GetValue(ExpandSlot(ops, info, field, TypeInt, ZeroSlot(kind), VString(m[field]), true).value) ==
            Ok(if held.None? then VNil else VInt(held.value))
  {
  }

  lemma IntRowOk(info: Info, o: FlattenOptions, field: string, slot: Slot)
    requires PlainFlags(o) && ManualFieldOk(info, field) && Classify(KindOf(slot)) == Some(TypeInt)
    ensures var v := GetValue(slot).value;
            Row(info, o, field, TypeInt, v).Ok? <==> NumberFlattens(info, o, field, if v.VInt? then Some(v.i) else None)
  {
  }

  /** The whole map at once: expand a validated configuration into a fresh message and flatten it.
      Flattening succeeds exactly when the numbers flatten, and then each non-empty field of the
      configuration is quiet exactly when it settles. */
  lemma NoPerpetualDiffInMap(ops: FloatOps, info: Info, o: FlattenOptions, t: StructType, slots: map<string, Slot>,
                             m: map<string, string>)
    requires Lawful(ops) && PlainFlags(o) && ValidMap(ops, info, t, slots, m)
    ensures var x := ExpansionOf(ops, info, t, m);
            && x.Fits(slots) && x.Succeeds(slots) && Typed(x.table, slots)
            && var after := x.Written(slots, x.table.Keys);
               && Typed(x.table, after)
               && (FlattenSucceeds(info, o, x.table, after) <==> NumbersFlatten(info, o, t, slots, m))
               && (NumbersFlatten(info, o, t, slots, m) ==>
                     var texts := FlattenedText(ops, info, o, t, after);
                     forall key: string | x.Present(LastPart(key)) && m[LastPart(key)] != "" ::
                       var f := LastPart(key);
                       Suppressed(ops, info, key, if f in texts then texts[f] else "", m[f]) <==>
                       Settles(ops, info, o, f, KindOf(slots[x.table[f].name]), x.table[f].valueType, m[f]))
  {
    ValidMapExpands(ops, info, t, slots, m);
    FlattensIffNumbersDo(ops, info, o, t, slots, m);
    var x := ExpansionOf(ops, info, t, m);
    var after := x.Written(slots, x.table.Keys);
    if NumbersFlatten(info, o, t, slots, m) {
      forall key: string | x.Present(LastPart(key)) && m[LastPart(key)] != ""
        ensures var f := LastPart(key);
                var texts := FlattenedText(ops, info, o, t, after);
                Suppressed(ops, info, key, if f in texts then texts[f] else "", m[f]) <==>
                Settles(ops, info, o, f, KindOf(slots[x.table[f].name]), x.table[f].valueType, m[f])
      {
        QuietInMap(ops, info, o, t, slots, m, key);
      }
    }
  }

  lemma QuietInMap(ops: FloatOps, info: Info, o: FlattenOptions, t: StructType, slots: map<string, Slot>,
                   m: map<string, string>, key: string)
    requires Lawful(ops) && PlainFlags(o) && ValidMap(ops, info, t, slots, m)
    requires var x := ExpansionOf(ops, info, t, m);
             && x.Fits(slots) && x.Succeeds(slots)
             && Typed(x.table, slots) && Typed(x.table, x.Written(slots, x.table.Keys))
             && FlattenSucceeds(info, o, x.table, x.Written(slots, x.table.Keys))
             && x.Present(LastPart(key)) && m[LastPart(key)] != ""
    ensures var x := ExpansionOf(ops, info, t, m);
            var f := LastPart(key);
            var texts := FlattenedText(ops, info, o, t, x.Written(slots, x.table.Keys));
            Suppressed(ops, info, key, if f in texts then texts[f] else "", m[f]) <==>
            Settles(ops, info, o, f, KindOf(slots[x.table[f].name]), x.table[f].valueType, m[f])
  {
    var x := ExpansionOf(ops, info, t, m);
    var f := LastPart(key);
    var after := x.Written(slots, x.table.Keys);
    var slot := slots[x.table[f].name];
    assert slot == ZeroSlot(KindOf(slot));
    OwnResult(x, slots, f);
    NoPerpetualDiff(ops, info, o, key, KindOf(slot), x.table[f].valueType, m[f]);
    QuietMeansSuppressed(ops, info, o, x.table, after, key, m[f]);
  }

  lemma QuietMeansSuppressed(ops: FloatOps, info: Info, o: FlattenOptions, table: map<string, FieldInfo>,
                             slots: map<string, Slot>, key: string, s: string)
    requires Typed(table, slots) && LastPart(key) in table && !Skip(info, LastPart(key))
    requires FieldRow(info, o, table, slots, LastPart(key)).Ok?
    ensures var f := LastPart(key);
            var texts := Texts(ops, Flattened(info, o, table, slots));
            Quiet(ops, info, o, key, table[f].valueType, slots[table[f].name], s) <==>
            Suppressed(ops, info, key, if f in texts then texts[f] else "", s)
  {
    TextsByRow(ops, info, o, table, slots, LastPart(key));
  }

  /** A registry of one struct type with one enum field of one name. */
  function EnumSample(field: string): Info {
    Sample(field, Int64ValueKind, 0).(manual := map[field := EnumEntry(map[0 := "ZERO"], map["ZERO" := 0], map[])])
  }

  const ONE_SLOT: map<string, Slot> := map["Field" := Int64Value(None)]

  /** A validated map that does not flatten: 7 is read as a number although the enum has no name for
      it, and has no text on the way back. */
  lemma UnnamedNumberStopsFlattening(ops: FloatOps, o: FlattenOptions, field: string, s: string)
    requires PlainFlags(o) && Atoi(s) == Some(7)
    ensures var info := EnumSample(field);
            var t := info.names[field][0];
            && ValidMap(ops, info, t, ONE_SLOT, map[field := s])
            && var x := ExpansionOf(ops, info, t, map[field := s]);
               && x.Fits(ONE_SLOT) && x.Succeeds(ONE_SLOT)
               && Typed(x.table, x.Written(ONE_SLOT, x.table.Keys))
               && !FlattenSucceeds(info, o, x.table, x.Written(ONE_SLOT, x.table.Keys))
  {
    var info := EnumSample(field);
    var t := info.names[field][0];
    UnnamedNumberIsValid(ops, info, field, t, s);
    ValidMapExpands(ops, info, t, ONE_SLOT, map[field := s]);
    FlattensIffNumbersDo(ops, info, o, t, ONE_SLOT, map[field := s]);
    assert !NumberFlattens(info, o, field, Some(7));
  }

  lemma UnnamedNumberIsValid(ops: FloatOps, info: Info, field: string, t: StructType, s: string)
    requires info == EnumSample(field) && t == info.names[field][0] && Atoi(s) == Some(7)
    ensures ValidMap(ops, info, t, ONE_SLOT, map[field := s])
    ensures NumberHeld(info, field, Int64ValueKind, map[field := s]) == Some(7)
  {
    SampleIsRegistered(ops, info, field, t);
    assert s != "ZERO" by {
      assert !IsDigit("ZERO"[0]);
    }
    assert Decode(CodecOf(info, field), s) == Ok(Some(7));
    assert CheckValidate(ops, info, field, s, t) == Accepted;
    TypesVerdictExact(ops, info, field, s, [t], None);
  }

  lemma SampleIsRegistered(ops: FloatOps, info: Info, field: string, t: StructType)
    requires info == EnumSample(field) && t == info.names[field][0]
    ensures Applies(ops, info, t, ONE_SLOT)
    ensures Uniform(info, field, TypeInt)
  {
    var f := StructField("Field", Some(field), Int64ValueKind);
    assert t.fields[..0] == [];
    assert FieldsOf(t.fields) == map[field := FieldInfo("Field", TypeInt)];
    assert forall g | g in t.fields :: g == f;
  }

  /** Expansion never changes the kind of a slot. */
  lemma KindsKept(x: Expansion, slots: map<string, Slot>)
    requires x.Fits(slots) && Typed(x.table, slots)
    ensures Typed(x.table, x.Written(slots, x.table.Keys))
  {
    forall n | n in slots
      ensures KindOf(x.AfterAll(slots, x.table.Keys, n)) == KindOf(slots[n])
    {
      if f :| f in x.table && x.Present(f) && x.table[f].name == n && x.FieldResult(slots, f).Ok? {
        assert KindOf(x.FieldResult(slots, f).value) == KindOf(slots[n]);
      }
    }
  }
}
