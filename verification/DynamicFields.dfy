/** Validate, diff-suppress, expand and flatten a map of settings against a registered struct type
    (yandex/dynamic_fields_fill.go). Each `range` over a Go map takes its order as an argument. */
module DynamicFields {
  import opened GoText
  import opened FieldCodec
  import opened Slots
  import opened FieldsInfo

  datatype Scalar = SInt(i: int) | SFloat(f: Float) | SBool(b: bool) | SString(s: string)

  /** What a field's text means: nothing (nil), a value of the field's type, or an error. */
  function DecodeText(ops: FloatOps, info: Info, field: string, vt: ValueType, s: string): Result<Option<Scalar>> {
    match vt
    case TypeInt =>
      (match Decode(CodecOf(info, field), s)
       case Err(e) => Err(e)
       case Ok(v) => Ok(if v.None? then None else Some(SInt(v.value))))
    case TypeFloat =>
      if s == "" then Ok(None)
      else
        var f := ops.parse(s);
        if f.Some? then Ok(Some(SFloat(f.value))) else Err(TypeMismatch)
    case TypeBool =>
      if s == "" then Ok(None)
      else
        var b := ParseBool(s);
        if b.Some? then Ok(Some(SBool(b.value))) else Err(TypeMismatch)
    case TypeString => Ok(Some(SString(s)))
  }

  // ---------- diff suppression ----------

  /** checkSuppress */
  function CheckSuppress(ops: FloatOps, info: Info, field: string, was: string, new_: string, t: StructType): bool {
    match GetType(info, t, field)
    case None => false
    case Some(fi) =>
      match fi.valueType
      case TypeInt =>
        var o, n := Decode(CodecOf(info, field), was), Decode(CodecOf(info, field), new_);
        o.Ok? && n.Ok? && (n.value.None? || (o.value.Some? && o.value.value == n.value.value))
      case TypeFloat =>
        var o, n := ops.parse(was), ops.parse(new_);
        && (was == "" || o.Some?) && (new_ == "" || n.Some?)
        && (new_ == "" || (was != "" && FloatEq(o.value, n.value)))
      case TypeBool =>
        var o, n := ParseBool(was), ParseBool(new_);
        && (was == "" || o.Some?) && (new_ == "" || n.Some?)
        && (new_ == "" || (was != "" && o.value == n.value))
      case TypeString => was == new_
  }

  function LastPart(key: string): string {
    var parts := Split(key, '.');
    parts[|parts| - 1]
  }

  /** The diff-suppress function of a settings map; `key` is the attribute path. */
  predicate Suppressed(ops: FloatOps, info: Info, key: string, was: string, new_: string) {
    var field := LastPart(key);
    if field in info.manual && info.manual[field].compare.Some? then info.manual[field].compare.value(was, new_)
    else if new_ == "" then true
    else if field in info.names then
      exists t :: t in info.names[field] && CheckSuppress(ops, info, field, was, new_, t)
    else new_ == was
  }

  method DiffSuppress(ops: FloatOps, info: Info, key: string, was: string, new_: string)
    returns (suppress: bool)
    ensures suppress == Suppressed(ops, info, key, was, new_)
  {
    var ph := Split(key, '.');
    var field := ph[|ph| - 1];
    if field in info.manual && info.manual[field].compare.Some? {
      return info.manual[field].compare.value(was, new_);
    }
    if new_ == "" {
      return true;
    }
    if field in info.names {
      var tps := info.names[field];
      for i := 0 to |tps|
        invariant forall j :: 0 <= j < i ==> !CheckSuppress(ops, info, field, was, new_, tps[j])
      {
        if CheckSuppress(ops, info, field, was, new_, tps[i]) {
          return true;
        }
      }
      return false;
    }
    return new_ == was;
  }

  // ---------- validation ----------

  datatype Verdict = Accepted | Rejected(error: Option<Error>)

  /** checkValidate */
  function CheckValidate(ops: FloatOps, info: Info, field: string, value: string, t: StructType): Verdict {
    match GetType(info, t, field)
    case None => Rejected(None)
    case Some(fi) =>
      match DecodeText(ops, info, field, fi.valueType, value)
      case Err(e) => Rejected(Some(e))
      case Ok(x) =>
        match CheckSetValue(info, field, fi.valueType, x)
        case Some(e) => Rejected(Some(e))
        case None => Accepted
  }

  /** int-, float-, bool- and stringCheckSetValue */
  function CheckSetValue(info: Info, field: string, vt: ValueType, x: Option<Scalar>): Option<Error> {
    if vt.TypeInt? && x.Some? && x.value.SInt? then IntCheckSetValue(info, field, Some(x.value.i))
    else NilCheck(info, field, x.None?)
  }

  datatype ValidateError = UnsupportedKey | UnsupportedType | CheckFailed(error: Error)

  /** The types are tried in turn; the first acceptance wins, else the last error is reported. */
  function TypesVerdict(ops: FloatOps, info: Info, field: string, value: string,
                        tps: seq<StructType>, err: Option<Error>): Option<ValidateError> {
    if tps == [] then Some(if err.None? then UnsupportedType else CheckFailed(err.value))
    else
      match CheckValidate(ops, info, field, value, tps[0])
      case Accepted => None
      case Rejected(e) => TypesVerdict(ops, info, field, value, tps[1..], if e.Some? then e else err)
  }

  /** The complaint about one key, if any. */
  function KeyVerdict(ops: FloatOps, info: Info, field: string, value: string): Option<ValidateError> {
    if field in info.manual && info.manual[field].check.Some? then
      var e := RunCheck(info, info.manual[field].check.value, value);
      if e.Some? then Some(CheckFailed(e.value)) else None
    else if field !in info.names then Some(UnsupportedKey)
    else TypesVerdict(ops, info, field, value, info.names[field], None)
  }

  /** The keys of `order` that are complained about, and the complaints. */
  function Complaints(ops: FloatOps, info: Info, m: map<string, string>, order: seq<string>)
    : (seq<string>, seq<ValidateError>)
    requires forall k | k in order :: k in m
  {
    if order == [] then ([], [])
    else
      var last := order[|order| - 1];
      var (fields, errors) := Complaints(ops, info, m, order[..|order| - 1]);
      var v := KeyVerdict(ops, info, last, m[last]);
      if v.Some? then (fields + [last], errors + [v.value]) else (fields, errors)
  }

  method Validate(ops: FloatOps, info: Info, m: map<string, string>, order: seq<string>)
    returns (fields: seq<string>, errors: seq<ValidateError>)
    requires Lists(order, m.Keys)
    ensures (fields, errors) == Complaints(ops, info, m, order)
    ensures errors == [] <==> forall k | k in m :: KeyVerdict(ops, info, k, m[k]).None?
    ensures Lists(fields, set k | k in m && KeyVerdict(ops, info, k, m[k]).Some?) && |errors| == |fields|
    ensures forall i | 0 <= i < |fields| :: fields[i] in m && KeyVerdict(ops, info, fields[i], m[fields[i]]) == Some(errors[i])
  {
    fields, errors := [], [];
    for i := 0 to |order|
      invariant (fields, errors) == Complaints(ops, info, m, order[..i])
    {
      var k := order[i];
      assert order[..i + 1][..i] == order[..i];
      var v := ValidateKey(ops, info, k, m[k]);
      if v.Some? {
        fields, errors := fields + [k], errors + [v.value];
      }
    }
    assert order[..|order|] == order;
    NoComplaints(ops, info, m, order);
    ComplaintsListed(ops, info, m, order, m.Keys);
  }

  /** The keys complained about are listed once each, every one with its own complaint. */
  lemma {:induction false} ComplaintsListed(ops: FloatOps, info: Info, m: map<string, string>, order: seq<string>,
                                            keys: set<string>)
    requires keys <= m.Keys && Lists(order, keys)
    ensures var (fields, errors) := Complaints(ops, info, m, order);
            && Lists(fields, set k | k in keys && KeyVerdict(ops, info, k, m[k]).Some?) && |errors| == |fields|
            && forall i | 0 <= i < |fields| ::
                 fields[i] in m && KeyVerdict(ops, info, fields[i], m[fields[i]]) == Some(errors[i])
    decreases |order|
  {
    if order != [] {
      var front, last := order[..|order| - 1], order[|order| - 1];
      assert order == front + [last];
      assert Lists(front, keys - {last});
      ComplaintsListed(ops, info, m, front, keys - {last});
      var (fields, errors) := Complaints(ops, info, m, front);
      assert last !in fields;
      assert KeyVerdict(ops, info, last, m[last]).None? ==> Complaints(ops, info, m, order) == (fields, errors);
      assert KeyVerdict(ops, info, last, m[last]).Some? ==> Complaints(ops, info, m, order).0 == fields + [last];
    }
  }

  lemma {:induction false} NoComplaints(ops: FloatOps, info: Info, m: map<string, string>, order: seq<string>)
    requires forall k | k in order :: k in m
    ensures Complaints(ops, info, m, order).1 == [] <==>
            forall k | k in order :: KeyVerdict(ops, info, k, m[k]).None?
  {
    if order != [] {
      var front, last := order[..|order| - 1], order[|order| - 1];
      NoComplaints(ops, info, m, front);
      assert order == front + [last];
    }
  }

  method ValidateKey(ops: FloatOps, info: Info, k: string, v: string) returns (complaint: Option<ValidateError>)
    ensures complaint == KeyVerdict(ops, info, k, v)
  {
    if k in info.manual && info.manual[k].check.Some? {
      var e := RunCheck(info, info.manual[k].check.value, v);
      return if e.Some? then Some(CheckFailed(e.value)) else None;
    }
    if k !in info.names {
      return Some(UnsupportedKey);
    }
    var tps := info.names[k];
    var err: Option<Error> := None;
    for i := 0 to |tps|
      invariant TypesVerdict(ops, info, k, v, tps, None) == TypesVerdict(ops, info, k, v, tps[i..], err)
    {
      assert tps[i..][1..] == tps[i + 1..];
      match CheckValidate(ops, info, k, v, tps[i]) {
        case Accepted =>
          return None;
        case Rejected(e) =>
          if e.Some? {
            err := e;
          }
      }
    }
    return Some(if err.None? then UnsupportedType else CheckFailed(err.value));
  }

  // ---------- expanding ----------

  /** A configuration value as a scalar of the field's type. */
  function Interpret(ops: FloatOps, info: Info, field: string, vt: ValueType, v: Value): Result<Option<Scalar>> {
    match v
    case VString(s) => DecodeText(ops, info, field, vt, s)
    case VNil => if vt.TypeString? then Err(NilNotAllowed) else Ok(None)
    case VInt(i) => if vt.TypeInt? then Ok(Some(SInt(i))) else Err(TypeMismatch)
    case VFloat(f) => if vt.TypeFloat? then Ok(Some(SFloat(f))) else Err(TypeMismatch)
    case VBool(b) => if vt.TypeBool? then Ok(Some(SBool(b))) else Err(TypeMismatch)
    case VIntPtr(_) => Err(TypeMismatch)
  }

  function Assign(ops: FloatOps, slot: Slot, x: Option<Scalar>, vt: ValueType): Result<Slot> {
    match vt
    case TypeInt => SetInt(slot, if x.Some? && x.value.SInt? then Some(x.value.i) else None)
    case TypeFloat => SetFloat(ops, slot, if x.Some? && x.value.SFloat? then Some(x.value.f) else None)
    case TypeBool => SetBool(slot, if x.Some? && x.value.SBool? then Some(x.value.b) else None)
    case TypeString => SetString(slot, if x.Some? && x.value.SString? then Some(x.value.s) else None)
  }

  /** The slot after expanding one value into it: with skipNil, a value that means nothing leaves
      the slot alone. */
  function ExpandSlot(ops: FloatOps, info: Info, field: string, vt: ValueType, slot: Slot, v: Value, skipNil: bool)
    : Result<Slot>
  {
    if skipNil && v.VNil? then Ok(slot)
    else
      match Interpret(ops, info, field, vt, v)
      case Err(e) => Err(e)
      case Ok(x) =>
        if skipNil && (x.None? || x == Some(SString(""))) then Ok(slot)
        else
          match CheckSetValue(info, field, vt, x)
          case Some(e) => Err(e)
          case None => Assign(ops, slot, x, vt)
  }

  /** expandResourceGenerateOneField */
  method ExpandOneField(ops: FloatOps, info: Info, fi: FieldInfo, field: string, obj: Message, value: Value, skipNil: bool)
    returns (err: Option<Error>)
    requires fi.name in obj.slots
    modifies obj
    ensures err == ErrorOf(ExpandSlot(ops, info, field, fi.valueType, old(obj.slots)[fi.name], value, skipNil))
    ensures obj.slots == After(old(obj.slots), fi.name,
                               ExpandSlot(ops, info, field, fi.valueType, old(obj.slots)[fi.name], value, skipNil))
  {
    if value.VNil? && skipNil {
      assert obj.slots == obj.slots[fi.name := obj.slots[fi.name]];
      return None;
    }
    assert obj.slots == obj.slots[fi.name := obj.slots[fi.name]];
    match fi.valueType {
      case TypeInt =>
        err := ExpandInt(info, fi, field, obj, value, skipNil);
      case TypeBool =>
        if value.VBool? {
          err := obj.SetBoolField(fi.name, Some(value.b));
        } else if value.VString? {
          var b: Option<bool> := None;
          if value.s != "" {
            b := ParseBool(value.s);
            if b.None? {
              return Some(TypeMismatch);
            }
          }
          if b.None? && skipNil {
            return None;
          }
          err := NilCheck(info, field, b.None?);
          if err.None? {
            err := obj.SetBoolField(fi.name, b);
          }
        } else if value.VNil? {
          err := NilCheck(info, field, true);
          if err.None? {
            err := obj.SetBoolField(fi.name, None);
          }
        } else {
          err := Some(TypeMismatch);
        }
      case TypeFloat =>
        if value.VFloat? {
          err := obj.SetFloatField(ops, fi.name, Some(value.f));
        } else if value.VString? {
          var f: Option<Float> := None;
          if value.s != "" {
            f := ops.parse(value.s);
            if f.None? {
              return Some(TypeMismatch);
            }
          }
          if f.None? && skipNil {
            return None;
          }
          err := NilCheck(info, field, f.None?);
          if err.None? {
            err := obj.SetFloatField(ops, fi.name, f);
          }
        } else if value.VNil? {
          err := NilCheck(info, field, true);
          if err.None? {
            err := obj.SetFloatField(ops, fi.name, None);
          }
        } else {
          err := Some(TypeMismatch);
        }
      case TypeString =>
        if value.VString? {
          if value.s == "" && skipNil {
            return None;
          }
          err := obj.SetStringField(fi.name, Some(value.s));
        } else if value.VNil? {
          err := Some(NilNotAllowed);
        } else {
          err := Some(TypeMismatch);
        }
    }
  }

  method ExpandInt(info: Info, fi: FieldInfo, field: string, obj: Message, value: Value, skipNil: bool)
    returns (err: Option<Error>)
    requires fi.name in obj.slots && !(value.VNil? && skipNil)
    modifies obj
    ensures forall ops :: err ==
              ErrorOf(ExpandSlot(ops, info, field, TypeInt, old(obj.slots)[fi.name], value, skipNil))
    ensures forall ops :: obj.slots ==
              After(old(obj.slots), fi.name,
                    ExpandSlot(ops, info, field, TypeInt, old(obj.slots)[fi.name], value, skipNil))
  {
    assert obj.slots == obj.slots[fi.name := obj.slots[fi.name]];
    var v: Option<int>;
    if value.VInt? {
      v := Some(value.i);
    } else if value.VString? {
      var r := Decode(CodecOf(info, field), value.s);
      if r.Err? {
        return Some(r.error);
      }
      v := r.value;
      if v.None? && skipNil {
        return None;
      }
    } else if value.VNil? {
      v := None;
    } else {
      return Some(TypeMismatch);
    }
    err := IntCheckSetValue(info, field, v);
    if err.None? {
      err := obj.SetIntField(fi.name, v);
    }
  }

  /** The inputs of one expansion: the field table of the target's type and the configuration. */
  datatype Expansion = Expansion(
    ops: FloatOps,
    info: Info,
    table: map<string, FieldInfo>,
    cfg: map<string, Value>,
    skipNil: bool
  ) {
    predicate Present(f: string) {
      f in table && !Skip(info, f) && f in cfg
    }

    ghost function Wanted(fields: set<string>): set<string> {
      set f | f in fields && Present(f)
    }

    function FieldResult(slots: map<string, Slot>, f: string): Result<Slot>
      requires Present(f) && table[f].name in slots
    {
      ExpandSlot(ops, info, f, table[f].valueType, slots[table[f].name], cfg[f], skipNil)
    }

    /** Every entry of the table has its own slot. */
    ghost predicate Fits(slots: map<string, Slot>) {
      && (forall f | f in table :: table[f].name in slots)
      && (forall f, g | f in table && g in table && table[f].name == table[g].name :: f == g)
    }

    ghost predicate Succeeds(slots: map<string, Slot>)
      requires Fits(slots)
    {
      forall f | Present(f) :: FieldResult(slots, f).Ok?
    }

    /** The slots after expanding the fields in `done`. */
    ghost function Written(slots: map<string, Slot>, done: set<string>): map<string, Slot>
      requires Fits(slots)
    {
      map n | n in slots :: AfterAll(slots, done, n)
    }

    ghost function AfterAll(slots: map<string, Slot>, done: set<string>, n: string): Slot
      requires Fits(slots) && n in slots
    {
      if f :| f in done && Present(f) && table[f].name == n && FieldResult(slots, f).Ok?
      then FieldResult(slots, f).value
      else slots[n]
    }

    lemma WrittenOneMore(slots: map<string, Slot>, done: set<string>, f: string)
      requires Fits(slots) && f in table && f !in done
      requires Present(f) ==> FieldResult(slots, f).Ok?
      ensures Written(slots, done)[table[f].name] == slots[table[f].name]
      ensures Written(slots, done + {f}) ==
              if Present(f) then Written(slots, done)[table[f].name := FieldResult(slots, f).value]
              else Written(slots, done)
    {
      var n := table[f].name;
      assert AfterAll(slots, done, n) == slots[n];
      forall m | m in slots
        ensures AfterAll(slots, done + {f}, m) ==
                if m == n && Present(f) then FieldResult(slots, f).value else AfterAll(slots, done, m)
      {
        OneMore(slots, done, f, m);
      }
    }

    lemma OneMore(slots: map<string, Slot>, done: set<string>, f: string, n: string)
      requires Fits(slots) && f in table && f !in done && n in slots
      requires Present(f) ==> FieldResult(slots, f).Ok?
      ensures AfterAll(slots, done + {f}, n) ==
              if n == table[f].name && Present(f) then FieldResult(slots, f).value else AfterAll(slots, done, n)
    {
      assert f in done + {f};
      assert forall g :: g in done + {f} <==> g in done || g == f;
    }
  }

  /** expandResourceGenerateNonSkippedFields: `order` is the order in which Go ranges over the field
      table. The outcome does not depend on it, except for which error is reported. */
  method ExpandNonSkippedFields(ops: FloatOps, info: Info, cfg: map<string, Value>, obj: Message?,
                                skipNil: bool, order: seq<string>)
    returns (r: Result<seq<string>>)
    requires obj != null ==> Expansion(ops, info, GetFields(info, obj.typ), cfg, skipNil).Fits(obj.slots)
    requires obj != null ==> Lists(order, GetFields(info, obj.typ).Keys)
    modifies obj
    ensures obj == null ==> r == Ok([])
    ensures obj != null ==>
              var x := Expansion(ops, info, GetFields(info, obj.typ), cfg, skipNil);
              && (r.Ok? <==> x.Succeeds(old(obj.slots)))
              && (r.Ok? ==> obj.slots == x.Written(old(obj.slots), x.table.Keys))
              && (r.Ok? ==> Lists(r.value, x.Wanted(x.table.Keys)))
              && (r.Err? ==> FailsSomewhere(x, old(obj.slots), order, r.error, obj.slots))
  {
    if obj == null {
      return Ok([]);
    }
    ghost var x := Expansion(ops, info, GetFields(info, obj.typ), cfg, skipNil);
    r := ExpandFields(ops, info, GetFields(info, obj.typ), cfg, obj, skipNil, order, x);
    KeptLists(x, order, x.table.Keys);
  }

  method ExpandFields(ops: FloatOps, info: Info, fields: map<string, FieldInfo>, cfg: map<string, Value>,
                      obj: Message, skipNil: bool, order: seq<string>, ghost x: Expansion)
    returns (r: Result<seq<string>>)
    requires x == Expansion(ops, info, fields, cfg, skipNil)
    requires x.Fits(obj.slots) && Lists(order, fields.Keys)
    modifies obj
    ensures r.Ok? <==> x.Succeeds(old(obj.slots))
    ensures r.Ok? ==> r.value == Kept(x, order)
    ensures r.Ok? ==> obj.slots == x.Written(old(obj.slots), x.table.Keys)
    ensures r.Err? ==> FailsSomewhere(x, old(obj.slots), order, r.error, obj.slots)
  {
    ghost var slots := obj.slots;
    var fieldsOut: seq<string> := [];
    ReachedStart(x, slots, order);
    for i := 0 to |order|
      invariant Reached(x, slots, order, i, obj.slots)
      invariant fieldsOut == Kept(x, order[..i])
    {
      var field := order[i];
      ReachedUntouched(x, slots, order, i, obj.slots);
      KeptNext(x, order, i);
      if !Skip(info, field) && field in cfg {
        ghost var now := obj.slots;
        var err := ExpandOneField(ops, info, fields[field], field, obj, cfg[field], skipNil);
        if err.Some? {
          FailsAt(x, slots, order, i, now);
          return Err(err.value);
        }
        ReachedWrites(x, slots, order, i, now);
        assert obj.slots == now[fields[field].name := x.FieldResult(slots, field).value];
        fieldsOut := fieldsOut + [field];
      } else {
        ReachedSkips(x, slots, order, i, obj.slots);
      }
    }
    ReachedEnd(x, slots, order, obj.slots);
    assert order[..|order|] == order;
    return Ok(fieldsOut);
  }

  /** `now` is what the slots hold after the first i fields of the order were expanded. */
  ghost predicate Reached(x: Expansion, slots: map<string, Slot>, order: seq<string>, i: nat, now: map<string, Slot>)
    requires x.Fits(slots) && i <= |order|
  {
    && (forall j | 0 <= j < i && x.Present(order[j]) :: x.FieldResult(slots, order[j]).Ok?)
    && now == x.Written(slots, PrefixSet(order, i))
  }

  /** An expansion that failed at order[i]: the fields before it are written, nothing after it. */
  ghost predicate Failing(x: Expansion, slots: map<string, Slot>, order: seq<string>, i: nat,
                          error: Error, result: map<string, Slot>)
    requires x.Fits(slots) && i < |order|
  {
    && x.Present(order[i]) && x.FieldResult(slots, order[i]) == Err(error)
    && Reached(x, slots, order, i, result)
  }

  ghost predicate FailsSomewhere(x: Expansion, slots: map<string, Slot>, order: seq<string>,
                                 error: Error, result: map<string, Slot>)
    requires x.Fits(slots)
  {
    exists i :: 0 <= i < |order| && Failing(x, slots, order, i, error, result)
  }

  lemma FailsAt(x: Expansion, slots: map<string, Slot>, order: seq<string>, i: nat, now: map<string, Slot>)
    requires x.Fits(slots) && i < |order| && Reached(x, slots, order, i, now)
    requires x.Present(order[i]) && x.FieldResult(slots, order[i]).Err?
    ensures !x.Succeeds(slots)
    ensures FailsSomewhere(x, slots, order, x.FieldResult(slots, order[i]).error, now)
  {
    assert Failing(x, slots, order, i, x.FieldResult(slots, order[i]).error, now);
  }

  lemma KeptNext(x: Expansion, order: seq<string>, i: nat)
    requires i < |order|
    ensures Kept(x, order[..i + 1]) ==
            if x.Present(order[i]) then Kept(x, order[..i]) + [order[i]] else Kept(x, order[..i])
  {
    assert order[..i + 1][..i] == order[..i];
  }

  lemma ReachedStart(x: Expansion, slots: map<string, Slot>, order: seq<string>)
    requires x.Fits(slots)
    ensures Reached(x, slots, order, 0, slots)
  {
  }

  lemma PrefixGrows(order: seq<string>, keys: set<string>, i: nat)
    requires i < |order| && Lists(order, keys)
    ensures order[i] in keys && order[i] !in PrefixSet(order, i)
    ensures PrefixSet(order, i + 1) == PrefixSet(order, i) + {order[i]}
  {
  }

  lemma ReachedWrites(x: Expansion, slots: map<string, Slot>, order: seq<string>, i: nat, now: map<string, Slot>)
    requires x.Fits(slots) && i < |order| && Reached(x, slots, order, i, now)
    requires Lists(order, x.table.Keys)
    requires x.Present(order[i]) && x.FieldResult(slots, order[i]).Ok?
    ensures Reached(x, slots, order, i + 1,
                    now[x.table[order[i]].name := x.FieldResult(slots, order[i]).value])
  {
    PrefixGrows(order, x.table.Keys, i);
    x.WrittenOneMore(slots, PrefixSet(order, i), order[i]);
  }

  lemma ReachedSkips(x: Expansion, slots: map<string, Slot>, order: seq<string>, i: nat, now: map<string, Slot>)
    requires x.Fits(slots) && i < |order| && Reached(x, slots, order, i, now)
    requires Lists(order, x.table.Keys)
    requires !x.Present(order[i])
    ensures Reached(x, slots, order, i + 1, now)
  {
    PrefixGrows(order, x.table.Keys, i);
    x.WrittenOneMore(slots, PrefixSet(order, i), order[i]);
  }

  lemma ReachedUntouched(x: Expansion, slots: map<string, Slot>, order: seq<string>, i: nat, now: map<string, Slot>)
    requires x.Fits(slots) && i < |order| && Reached(x, slots, order, i, now)
    requires Lists(order, x.table.Keys)
    ensures order[i] in x.table
    ensures var n := x.table[order[i]].name; n in now && now[n] == slots[n]
  {
  }

  lemma ReachedEnd(x: Expansion, slots: map<string, Slot>, order: seq<string>, now: map<string, Slot>)
    requires x.Fits(slots) && Reached(x, slots, order, |order|, now)
    requires Lists(order, x.table.Keys)
    ensures x.Succeeds(slots) && now == x.Written(slots, x.table.Keys)
  {
  }

  /** The present fields of `order`, in that order. */
  function Kept(x: Expansion, order: seq<string>): seq<string> {
    if order == [] then []
    else
      var front := Kept(x, order[..|order| - 1]);
      if x.Present(order[|order| - 1]) then front + [order[|order| - 1]] else front
  }

  lemma {:induction false} KeptLists(x: Expansion, order: seq<string>, keys: set<string>)
    requires Lists(order, keys)
    ensures Lists(Kept(x, order), x.Wanted(keys))
    decreases |order|
  {
    if order != [] {
      var front, last := order[..|order| - 1], order[|order| - 1];
      assert order == front + [last];
      KeptLists(x, front, keys - {last});
      if x.Present(last) {
        ListsSnoc(Kept(x, front), x.Wanted(keys - {last}), last);
        assert x.Wanted(keys) == x.Wanted(keys - {last}) + {last};
      } else {
        assert x.Wanted(keys) == x.Wanted(keys - {last});
      }
    }
  }

  lemma ListsSnoc<K(!new)>(order: seq<K>, keys: set<K>, k: K)
    requires Lists(order, keys) && k !in keys
    ensures Lists(order + [k], keys + {k})
  {
  }

  ghost function PrefixSet(order: seq<string>, i: nat): set<string>
    requires i <= |order|
  {
    set j | 0 <= j < i :: order[j]
  }

  // ---------- flattening ----------

  datatype FlattenOptions = FlattenOptions(
    includeNil: bool,
    useDefault: bool,
    collapseDefault: bool,
    knownDefault: Option<set<string>>
  ) {
    predicate Collapses(field: string) {
      collapseDefault && !(knownDefault.Some? && field in knownDefault.value)
    }
  }

  /** flattenResourceGenerateOneRow: what is stored for the field, if anything. */
  function Row(info: Info, o: FlattenOptions, field: string, vt: ValueType, value: Value): Result<Option<Value>>
    requires value.VNil? || HasType(value, vt)
  {
    if value.VNil? then
      if vt.TypeInt? && o.useDefault && GetDefault(info, field).Some?
      then Ok(Some(VIntPtr(GetDefault(info, field))))
      else Ok(if o.includeNil then Some(VNil) else None)
    else
      match vt
      case TypeInt =>
        if o.Collapses(field) && GetDefault(info, field) == Some(value.i) then Ok(None)
        else if IsStringable(info, field) then
          (match Encode(CodecOf(info, field), Some(value.i))
           case Err(e) => Err(e)
           case Ok(s) => Ok(Some(VString(s))))
        else Ok(Some(value))
      case TypeString => Ok(if !o.includeNil && o.Collapses(field) && value.s == "" then None else Some(value))
      case _ => Ok(Some(value))
  }

  /** The table's entries lie on slots of their type. */
  ghost predicate Typed(table: map<string, FieldInfo>, slots: map<string, Slot>) {
    forall f | f in table ::
      table[f].name in slots && Classify(KindOf(slots[table[f].name])) == Some(table[f].valueType)
  }

  function FieldRow(info: Info, o: FlattenOptions, table: map<string, FieldInfo>, slots: map<string, Slot>, f: string)
    : Result<Option<Value>>
    requires f in table && table[f].name in slots
    requires Classify(KindOf(slots[table[f].name])) == Some(table[f].valueType)
  {
    Row(info, o, f, table[f].valueType, GetValue(slots[table[f].name]).value)
  }

  ghost predicate FlattenSucceeds(info: Info, o: FlattenOptions, table: map<string, FieldInfo>, slots: map<string, Slot>)
    requires Typed(table, slots)
  {
    forall f | f in table && !Skip(info, f) :: FieldRow(info, o, table, slots, f).Ok?
  }

  ghost predicate Stored(info: Info, o: FlattenOptions, table: map<string, FieldInfo>, slots: map<string, Slot>, f: string)
    requires Typed(table, slots) && f in table
  {
    && !Skip(info, f)
    && FieldRow(info, o, table, slots, f).Ok? && FieldRow(info, o, table, slots, f).value.Some?
  }

  /** The map flattenResourceGenerate fills. */
  ghost function Flattened(info: Info, o: FlattenOptions, table: map<string, FieldInfo>, slots: map<string, Slot>)
    : map<string, Value>
    requires Typed(table, slots)
  {
    map f | f in table && Stored(info, o, table, slots, f) :: FieldRow(info, o, table, slots, f).value.value
  }

  method Flatten(info: Info, o: FlattenOptions, obj: Message?, order: seq<string>)
    returns (r: Result<Option<map<string, Value>>>)
    requires obj != null ==> Typed(GetFields(info, obj.typ), obj.slots)
    requires obj != null ==> Lists(order, GetFields(info, obj.typ).Keys)
    ensures obj == null ==> r == Ok(None)
    ensures obj != null ==>
              var table := GetFields(info, obj.typ);
              && (r.Ok? <==> FlattenSucceeds(info, o, table, obj.slots))
              && (r.Ok? ==> r == Ok(Some(Flattened(info, o, table, obj.slots))))
  {
    if obj == null {
      return Ok(None);
    }
    var fields := GetFields(info, obj.typ);
    var res: map<string, Value> := map[];
    for i := 0 to |order|
      invariant forall f :: f in res <==> f in order[..i] && Stored(info, o, fields, obj.slots, f)
      invariant forall f | f in res :: FieldRow(info, o, fields, obj.slots, f) == Ok(Some(res[f]))
      invariant forall f | f in order[..i] && !Skip(info, f) :: FieldRow(info, o, fields, obj.slots, f).Ok?
    {
      var field := order[i];
      assert order[..i + 1] == order[..i] + [field];
      if !Skip(info, field) {
        var value := GetValue(obj.slots[fields[field].name]).value;
        var row := Row(info, o, field, fields[field].valueType, value);
        if row.Err? {
          return Err(row.error);
        }
        if row.value.Some? {
          res := res[field := row.value.value];
        }
      }
    }
    assert order[..|order|] == order;
    assert res == Flattened(info, o, fields, obj.slots);
    return Ok(Some(res));
  }

  /** The text of a flattened value; nil and pointers have none. */
  function ToText(ops: FloatOps, v: Value): Option<string> {
    match v
    case VInt(i) => Some(Itoa(i))
    case VFloat(f) => Some(ops.format(f))
    case VBool(b) => Some(FormatBool(b))
    case VString(s) => Some(s)
    case _ => None
  }

  function Texts(ops: FloatOps, m: map<string, Value>): map<string, string> {
    map k | k in m && ToText(ops, m[k]).Some? :: ToText(ops, m[k]).value
  }

  /** flattenResourceGenerateMapS */
  method FlattenMapS(ops: FloatOps, info: Info, o: FlattenOptions, obj: Message?, order: seq<string>)
    returns (r: Result<Option<map<string, string>>>)
    requires obj != null ==> Typed(GetFields(info, obj.typ), obj.slots)
    requires obj != null ==> Lists(order, GetFields(info, obj.typ).Keys)
    ensures obj == null ==> r == Ok(None)
    ensures obj != null ==>
              var table := GetFields(info, obj.typ);
              && (r.Ok? <==> FlattenSucceeds(info, o, table, obj.slots))
              && (r.Ok? ==> var m := Flattened(info, o, table, obj.slots);
                            r.value == if m == map[] then None else Some(Texts(ops, m)))
  {
    var rm := Flatten(info, o, obj, order);
    if rm.Err? {
      return Err(rm.error);
    }
    if rm.value.None? || rm.value.value == map[] {
      return Ok(None);
    }
    var m := rm.value.value;
    var out: map<string, string> := map[];
    var rest := m.Keys;
    while rest != {}
      invariant rest <= m.Keys
      invariant forall k :: k in out <==> k in m && k !in rest && ToText(ops, m[k]).Some?
      invariant forall k | k in out :: Some(out[k]) == ToText(ops, m[k])
      decreases rest
    {
      var k: string :| k in rest;
      match m[k] {
        case VInt(i) => out := out[k := Itoa(i)];
        case VFloat(f) => out := out[k := ops.format(f)];
        case VBool(b) => out := out[k := FormatBool(b)];
        case VString(s) => out := out[k := s];
        case _ =>
      }
      rest := rest - {k};
    }
    assert out == Texts(ops, m);
    return Ok(Some(out));
  }
}
