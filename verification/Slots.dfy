/** Typed reads and writes of one named field of a settings message (yandex/dynamic.go). Reflection
    is replaced by slots that know their Go kind. */
module Slots {
  import opened GoText

  // ---------- floating point ----------

  /** The places of the finite float64 values in their order, counted from positive zero: the bits of
      a float64 without its sign, negated for a negative one. */
  type Place = n: int | -0x7fef_ffff_ffff_ffff <= n <= 0x7fef_ffff_ffff_ffff

  /** The float64 values, and no others; Num(0) is positive zero. */
  datatype Float = NaN | NegInf | PosInf | NegZero | Num(n: Place)

  predicate IsZero(f: Float) {
    f == NegZero || f == Num(0)
  }

  /** Go's == on float64. */
  predicate FloatEq(a: Float, b: Float) {
    !a.NaN? && !b.NaN? && (a == b || (IsZero(a) && IsZero(b)))
  }

  /** strconv.ParseFloat, strconv.FormatFloat(_, 'f', -1, 64) and the conversion to float32 and back. */
  datatype FloatOps = FloatOps(
    parse: string -> Option<Float>,
    format: Float -> string,
    narrow: Float -> Float
  )

  /** The shortest text, "NaN" included, reads back as the same value; narrowing is a projection
      that keeps zero, and only NaN narrows to NaN. */
  ghost predicate Lawful(ops: FloatOps) {
    && (forall f: Float :: ops.format(f) != "" && ops.parse(ops.format(f)) == Some(f))
    && (forall f: Float :: ops.narrow(ops.narrow(f)) == ops.narrow(f))
    && (forall f: Float :: ops.narrow(f).NaN? <==> f.NaN?)
    && ops.narrow(Num(0)) == Num(0)
  }

  /** A spelling of the float64 values that meets the laws. */
  function Spelled(f: Float): string {
    match f
    case NaN => "NaN"
    case NegInf => "-Inf"
    case PosInf => "+Inf"
    case NegZero => "-0"
    case Num(n) => Itoa(n)
  }

  function Spelling(s: string): Option<Float> {
    if s == "NaN" then Some(NaN)
    else if s == "-Inf" then Some(NegInf)
    else if s == "+Inf" then Some(PosInf)
    else if s == "-0" then Some(NegZero)
    else
      match Atoi(s)
      case Some(n) => if -0x7fef_ffff_ffff_ffff <= n <= 0x7fef_ffff_ffff_ffff then Some(Num(n)) else None
      case None => None
  }

  /** The laws can be met. */
  lemma LawfulOpsExist()
    ensures exists ops :: Lawful(ops)
  {
    var ops := FloatOps(Spelling, Spelled, f => f);
    forall f: Float
      ensures ops.format(f) != "" && ops.parse(ops.format(f)) == Some(f)
    {
      SpellingReads(f);
    }
    assert Lawful(ops);
  }

  lemma SpellingReads(f: Float)
    ensures Spelled(f) != "" && Spelling(Spelled(f)) == Some(f)
  {
    if f.Num? {
      AtoiInvertsItoa(f.n);
      NumbersAreNotNames(f.n);
    }
  }

  lemma NumbersAreNotNames(n: int)
    ensures Itoa(n) !in ["NaN", "-Inf", "+Inf", "-0"]
  {
    var s := Itoa(n);
    if n < 0 {
      assert s == "-" + Digits(-n) && s[1..] == Digits(-n);
      assert IsDigit(s[1]) && !IsDigit("-Inf"[1]);
      assert Decimal(s[1..]) == -n && Decimal("-0"[1..]) == 0 by {
        assert "-0"[1..] == "0" && Decimal("0"[..0]) == 0;
      }
    } else {
      assert s == Digits(n) && IsDigit(s[0]);
      assert !IsDigit("NaN"[0]) && !IsDigit("-Inf"[0]) && !IsDigit("+Inf"[0]) && !IsDigit("-0"[0]);
    }
  }

  // ---------- kinds and slots ----------

  datatype Kind =
    | IntKind(w: Width) | GoIntKind | Int64ValueKind
    | BoolKind | BoolValueKind
    | Float32Kind | Float64Kind | DoubleValueKind
    | StringKind
    | OtherPtrKind | OtherKind

  datatype Slot =
    | IntSlot(w: Width, i: int) | GoIntSlot(i: int) | Int64Value(int64: Option<int>)
    | BoolSlot(b: bool) | BoolValue(boolean: Option<bool>)
    | Float32Slot(f: Float) | Float64Slot(f: Float) | DoubleValue(double: Option<Float>)
    | StringSlot(s: string)
    | OtherPtr(isNil: bool) | OtherSlot

  function KindOf(slot: Slot): Kind {
    match slot
    case IntSlot(w, _) => IntKind(w)
    case GoIntSlot(_) => GoIntKind
    case Int64Value(_) => Int64ValueKind
    case BoolSlot(_) => BoolKind
    case BoolValue(_) => BoolValueKind
    case Float32Slot(_) => Float32Kind
    case Float64Slot(_) => Float64Kind
    case DoubleValue(_) => DoubleValueKind
    case StringSlot(_) => StringKind
    case OtherPtr(_) => OtherPtrKind
    case OtherSlot => OtherKind
  }

  function ZeroSlot(kind: Kind): (slot: Slot)
    ensures KindOf(slot) == kind
  {
    match kind
    case IntKind(w) => IntSlot(w, 0)
    case GoIntKind => GoIntSlot(0)
    case Int64ValueKind => Int64Value(None)
    case BoolKind => BoolSlot(false)
    case BoolValueKind => BoolValue(None)
    case Float32Kind => Float32Slot(Num(0))
    case Float64Kind => Float64Slot(Num(0))
    case DoubleValueKind => DoubleValue(None)
    case StringKind => StringSlot("")
    case OtherPtrKind => OtherPtr(true)
    case OtherKind => OtherSlot
  }

  /** The slot holds a value its Go type can represent. */
  predicate SlotOk(ops: FloatOps, slot: Slot) {
    match slot
    case IntSlot(w, i) => Fits(w, i)
    case GoIntSlot(i) => Fits(W64, i)
    case Int64Value(v) => v.Some? ==> Fits(W64, v.value)
    case Float32Slot(f) => ops.narrow(f) == f
    case _ => true
  }

  datatype ValueType = TypeInt | TypeFloat | TypeBool | TypeString

  /** How a field of this kind takes part in the settings; other kinds do not. */
  function Classify(kind: Kind): Option<ValueType> {
    match kind
    case IntKind(w) => if w == W32 || w == W64 then Some(TypeInt) else None
    case Int64ValueKind => Some(TypeInt)
    case BoolKind => Some(TypeBool)
    case BoolValueKind => Some(TypeBool)
    case Float32Kind => Some(TypeFloat)
    case Float64Kind => Some(TypeFloat)
    case DoubleValueKind => Some(TypeFloat)
    case StringKind => Some(TypeString)
    case _ => None
  }

  // ---------- setters and getter ----------

  function SetInt(slot: Slot, v: Option<int>): Result<Slot> {
    match slot
    case IntSlot(w, _) => if v.None? then Err(NilNotAllowed) else Ok(IntSlot(w, Wrap(w, v.value)))
    case GoIntSlot(_) => if v.None? then Err(NilNotAllowed) else Ok(GoIntSlot(Wrap(W64, v.value)))
    case Int64Value(_) => Ok(Int64Value(if v.None? then None else Some(Wrap(W64, v.value))))
    case _ => Err(TypeMismatch)
  }

  function SetBool(slot: Slot, v: Option<bool>): Result<Slot> {
    match slot
    case BoolSlot(_) => if v.None? then Err(NilNotAllowed) else Ok(BoolSlot(v.value))
    case BoolValue(_) => Ok(BoolValue(v))
    case _ => Err(TypeMismatch)
  }

  function SetFloat(ops: FloatOps, slot: Slot, v: Option<Float>): Result<Slot> {
    match slot
    case Float32Slot(_) => if v.None? then Err(NilNotAllowed) else Ok(Float32Slot(ops.narrow(v.value)))
    case Float64Slot(_) => if v.None? then Err(NilNotAllowed) else Ok(Float64Slot(v.value))
    case DoubleValue(_) => Ok(DoubleValue(v))
    case _ => Err(TypeMismatch)
  }

  function SetString(slot: Slot, v: Option<string>): Result<Slot> {
    match slot
    case StringSlot(_) => if v.None? then Err(NilNotAllowed) else Ok(StringSlot(v.value))
    case _ => Err(TypeMismatch)
  }

  /** Dynamically typed values, as they pass between the message and the resource data. */
  datatype Value =
    | VNil
    | VInt(i: int) | VIntPtr(p: Option<int>)
    | VFloat(f: Float) | VBool(b: bool) | VString(s: string)

  function GetValue(slot: Slot): Result<Value> {
    match slot
    case IntSlot(_, i) => Ok(VInt(i))
    case GoIntSlot(i) => Ok(VInt(i))
    case Int64Value(v) => Ok(if v.None? then VNil else VInt(v.value))
    case BoolSlot(b) => Ok(VBool(b))
    case BoolValue(v) => Ok(if v.None? then VNil else VBool(v.value))
    case Float32Slot(f) => Ok(VFloat(f))
    case Float64Slot(f) => Ok(VFloat(f))
    case DoubleValue(v) => Ok(if v.None? then VNil else VFloat(v.value))
    case StringSlot(s) => Ok(VString(s))
    case OtherPtr(isNil) => if isNil then Ok(VNil) else Err(TypeMismatch)
    case OtherSlot => Err(TypeMismatch)
  }

  predicate HasType(v: Value, vt: ValueType) {
    match vt
    case TypeInt => v.VInt?
    case TypeFloat => v.VFloat?
    case TypeBool => v.VBool?
    case TypeString => v.VString?
  }

  /** A kind that is given a value type is read as nil or a value of that type, and the setter of
      that type, and no other, takes it. */
  lemma ClassifiedKindsAreAccessible(ops: FloatOps, slot: Slot, vt: ValueType)
    requires Classify(KindOf(slot)) == Some(vt)
    ensures GetValue(slot).Ok? && (GetValue(slot).value.VNil? || HasType(GetValue(slot).value, vt))
    ensures forall v :: SetInt(slot, Some(v)).Ok? <==> vt.TypeInt?
    ensures forall v :: SetFloat(ops, slot, Some(v)).Ok? <==> vt.TypeFloat?
    ensures forall v :: SetBool(slot, Some(v)).Ok? <==> vt.TypeBool?
    ensures forall v :: SetString(slot, Some(v)).Ok? <==> vt.TypeString?
  {
  }

  /** Reading back what was written gives the value as the slot can hold it; kind and
      representability are kept. */
  lemma SetThenGet(ops: FloatOps, slot: Slot)
    requires Lawful(ops) && SlotOk(ops, slot)
    ensures forall v | SetInt(slot, v).Ok? :: var s := SetInt(slot, v).value;
              && KindOf(s) == KindOf(slot) && SlotOk(ops, s)
              && GetValue(s) == Ok(if v.None? then VNil else
                                   VInt(Wrap(if slot.IntSlot? then slot.w else W64, v.value)))
    ensures forall v | SetFloat(ops, slot, v).Ok? :: var s := SetFloat(ops, slot, v).value;
              && KindOf(s) == KindOf(slot) && SlotOk(ops, s)
              && GetValue(s) == Ok(if v.None? then VNil else
                                   VFloat(if slot.Float32Slot? then ops.narrow(v.value) else v.value))
    ensures forall v | SetBool(slot, v).Ok? :: var s := SetBool(slot, v).value;
              && KindOf(s) == KindOf(slot) && SlotOk(ops, s)
              && GetValue(s) == Ok(if v.None? then VNil else VBool(v.value))
    ensures forall v | SetString(slot, v).Ok? :: var s := SetString(slot, v).value;
              && KindOf(s) == KindOf(slot) && SlotOk(ops, s)
              && GetValue(s) == Ok(VString(v.value))
  {
  }

  // ---------- struct types and messages ----------

  /** `tag` is the name found in the field's protobuf tag, if any. */
  datatype StructField = StructField(name: string, tag: Option<string>, kind: Kind)

  datatype StructType = StructType(id: string, fields: seq<StructField>)

  /** Go rejects two fields of one name. */
  ghost predicate GoStruct(t: StructType) {
    forall i, j :: 0 <= i < j < |t.fields| ==> t.fields[i].name != t.fields[j].name
  }

  /** The slots of a value of struct type t. */
  ghost predicate ObjectOf(ops: FloatOps, t: StructType, slots: map<string, Slot>) {
    && (forall f | f in t.fields :: f.name in slots && KindOf(slots[f.name]) == f.kind)
    && (forall n | n in slots :: SlotOk(ops, slots[n]))
  }

  datatype FieldInfo = FieldInfo(name: string, valueType: ValueType)

  /** getFieldsInfo: the tagged fields of a classified kind by tag; a later field replaces an
      earlier one with the same tag. */
  function FieldsOf(fields: seq<StructField>): map<string, FieldInfo> {
    if fields == [] then map[]
    else
      var f := fields[|fields| - 1];
      var front := FieldsOf(fields[..|fields| - 1]);
      if f.tag.Some? && Classify(f.kind).Some?
      then front[f.tag.value := FieldInfo(f.name, Classify(f.kind).value)]
      else front
  }

  method GetFieldsInfo(t: StructType) returns (fis: map<string, FieldInfo>)
    ensures fis == FieldsOf(t.fields)
  {
    fis := map[];
    for i := 0 to |t.fields|
      invariant fis == FieldsOf(t.fields[..i])
    {
      assert t.fields[..i + 1][..i] == t.fields[..i];
      var f := t.fields[i];
      if f.tag.Some? {
        if f.kind == IntKind(W32) || f.kind == IntKind(W64) || f.kind == Int64ValueKind {
          fis := fis[f.tag.value := FieldInfo(f.name, TypeInt)];
        }
        if f.kind == BoolKind || f.kind == BoolValueKind {
          fis := fis[f.tag.value := FieldInfo(f.name, TypeBool)];
        }
        if f.kind == Float32Kind || f.kind == Float64Kind || f.kind == DoubleValueKind {
          fis := fis[f.tag.value := FieldInfo(f.name, TypeFloat)];
        }
        if f.kind == StringKind {
          fis := fis[f.tag.value := FieldInfo(f.name, TypeString)];
        }
      }
    }
    assert t.fields[..|t.fields|] == t.fields;
  }

  /** Every entry of the field table describes one field of the struct, and no two entries name the
      same Go field: writes through different tags never collide. */
  lemma {:induction false} TableDescribesFields(fields: seq<StructField>)
    requires forall i, j :: 0 <= i < j < |fields| ==> fields[i].name != fields[j].name
    ensures forall k | k in FieldsOf(fields) :: exists f :: f in fields && Describes(f, k, FieldsOf(fields)[k])
    ensures forall j, k | j in FieldsOf(fields) && k in FieldsOf(fields)
              && FieldsOf(fields)[j].name == FieldsOf(fields)[k].name :: j == k
  {
    if fields != [] {
      var front, last := fields[..|fields| - 1], fields[|fields| - 1];
      TableDescribesFields(front);
      assert forall f | f in front :: f in fields && f.name != last.name;
      if last.tag.Some? && Classify(last.kind).Some? {
        assert Describes(last, last.tag.value, FieldsOf(fields)[last.tag.value]);
      }
      forall k | k in FieldsOf(fields)
        ensures exists f :: f in fields && Describes(f, k, FieldsOf(fields)[k])
      {
        if !Describes(last, k, FieldsOf(fields)[k]) {
          var f :| f in front && Describes(f, k, FieldsOf(front)[k]);
          assert f in fields;
        }
      }
    }
  }

  /** A tagged field of one of the kinds the settings know is in the table, as long as no later field has
      the same tag. */
  lemma {:induction false} TableCoversFields(fields: seq<StructField>, i: nat)
    requires i < |fields| && fields[i].tag.Some?
    requires forall j | i < j < |fields| :: fields[j].tag != fields[i].tag
    ensures var f, table := fields[i], FieldsOf(fields);
            && (f.kind in {IntKind(W32), IntKind(W64), Int64ValueKind} ==>
                  f.tag.value in table && table[f.tag.value] == FieldInfo(f.name, TypeInt))
            && (f.kind in {BoolKind, BoolValueKind} ==>
                  f.tag.value in table && table[f.tag.value] == FieldInfo(f.name, TypeBool))
            && (f.kind in {Float32Kind, Float64Kind, DoubleValueKind} ==>
                  f.tag.value in table && table[f.tag.value] == FieldInfo(f.name, TypeFloat))
            && (f.kind == StringKind ==>
                  f.tag.value in table && table[f.tag.value] == FieldInfo(f.name, TypeString))
  {
    var front := fields[..|fields| - 1];
    if i < |front| {
      TableCoversFields(front, i);
      assert fields[|fields| - 1].tag != fields[i].tag;
    }
  }

  predicate Describes(f: StructField, tag: string, fi: FieldInfo) {
    f.tag == Some(tag) && f.name == fi.name && Classify(f.kind) == Some(fi.valueType)
  }

  /** A settings message that the expanders write field by field. */
  class Message {
    const typ: StructType
    var slots: map<string, Slot>

    constructor (typ: StructType, slots: map<string, Slot>)
      ensures this.typ == typ && this.slots == slots
    {
      this.typ := typ;
      this.slots := slots;
    }

    method SetIntField(name: string, v: Option<int>) returns (err: Option<Error>)
      requires name in slots
      modifies this
      ensures err == ErrorOf(SetInt(old(slots)[name], v))
      ensures slots == After(old(slots), name, SetInt(old(slots)[name], v))
    {
      err := Store(name, SetInt(slots[name], v));
    }

    method SetBoolField(name: string, v: Option<bool>) returns (err: Option<Error>)
      requires name in slots
      modifies this
      ensures err == ErrorOf(SetBool(old(slots)[name], v))
      ensures slots == After(old(slots), name, SetBool(old(slots)[name], v))
    {
      err := Store(name, SetBool(slots[name], v));
    }

    method SetFloatField(ops: FloatOps, name: string, v: Option<Float>) returns (err: Option<Error>)
      requires name in slots
      modifies this
      ensures err == ErrorOf(SetFloat(ops, old(slots)[name], v))
      ensures slots == After(old(slots), name, SetFloat(ops, old(slots)[name], v))
    {
      err := Store(name, SetFloat(ops, slots[name], v));
    }

    method SetStringField(name: string, v: Option<string>) returns (err: Option<Error>)
      requires name in slots
      modifies this
      ensures err == ErrorOf(SetString(old(slots)[name], v))
      ensures slots == After(old(slots), name, SetString(old(slots)[name], v))
    {
      err := Store(name, SetString(slots[name], v));
    }

    method Store(name: string, r: Result<Slot>) returns (err: Option<Error>)
      requires name in slots
      modifies this
      ensures err == ErrorOf(r) && slots == After(old(slots), name, r)
    {
      if r.Ok? {
        slots := slots[name := r.value];
      }
      err := ErrorOf(r);
    }
  }

  function ErrorOf<T>(r: Result<T>): Option<Error> {
    if r.Err? then Some(r.error) else None
  }

  function After(slots: map<string, Slot>, name: string, r: Result<Slot>): map<string, Slot> {
    if r.Ok? then slots[name := r.value] else slots
  }
}
