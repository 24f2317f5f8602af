/**
 * The JSON template of a message type: every field of the descriptor with
 * its default value, written into a compact buffer (no indentation, ','
 * between entries and ':' after keys, the form the schema scan asks for).
 */
module Render {
  import opened Wrappers
  import opened Decimal
  import opened SortKeys
  import Base64

  /** A field value as the renderer sees it, by its Go kind. */
  datatype Value =
    | Int64Val(i: int)
    | Int32Val(i: int)
    | Uint64Val(n: nat)
    | Uint32Val(n: nat)
    | BoolVal(b: bool)
    | BytesVal(bytes: seq<Base64.Byte>)
    | StringVal(s: string)
    | Nil                                  // a nil interface or nil pointer
    | MessageVal(json: Result<string, string>)  // a non-nil message, rendered by the proto JSON marshaller
    | MapVal(entries: map<Key, Value>)
    | ListVal(items: seq<Value>)

  /** A field descriptor: names, kind, the enum and message types it refers to, and its default value. */
  datatype FieldDesc = FieldDesc(
    name: string,
    jsonName: string,
    number: int,
    extension: Option<string>,              // Some(scope) for an extension: its package or parent's full name
    enumValues: Option<map<int, string>>,   // the enum type's value names by number
    messageType: Option<MessageDesc>,
    isMap: bool,
    isRepeated: bool,
    defaultValue: Value)

  datatype MessageDesc = MessageDesc(fields: seq<FieldDesc>)

  /** The marshaller options that matter here; jsonString is json.Marshal on a string (quoting and escaping). */
  datatype Opts = Opts(origName: bool, enumsAsInts: bool, jsonString: string -> string)

  /** Why rendering stopped: an error returned, or a panic. */
  datatype Stop = Failure(reason: string) | Crash(reason: string)

  type Out = Result<string, Stop>

  const Null := "null"
  const InvalidKey := "invalid map key value"
  const NotAMap := "interface conversion: value is not map[interface{}]interface{}"
  const NotAList := "interface conversion: value is not []interface{}"
  const NotAMessage := "interface conversion: value is not proto.Message"
  const NotBytes := "reflect: call of Bytes on a non-byte slice"
  const NilDescriptor := "nil field descriptor"
  const NilEntryType := "nil map entry type"
  const Incomparable := "cannot compare keys"

  /** The elements joined with ',' as the `first` flag of the buffer lays them out. */
  function Join(parts: seq<string>): string
  {
    if |parts| == 0 then ""
    else if |parts| == 1 then parts[0]
    else Join(parts[..|parts| - 1]) + "," + parts[|parts| - 1]
  }

  lemma JoinSnoc(ps: seq<string>, t: string)
    ensures Join(ps + [t]) == if ps == [] then t else Join(ps) + "," + t
  {
    assert (ps + [t])[..|ps|] == ps;
  }

  /** Concatenation regrouped: text appended piece by piece is the prefix and the pieces' concatenation. */
  lemma Regroup(a: string, b: string, c: string, d: string)
    ensures a + b + c + d == a + (b + c + d)
  {
  }

  /** One more entry written after the separator maybeNext chose. */
  lemma AppendPart(prefix: string, ps: seq<string>, t: string, text: string)
    requires text == prefix + Join(ps) + (if ps == [] then "" else ",") + t
    ensures text == prefix + Join(ps + [t])
  {
    JoinSnoc(ps, t);
    if ps == [] {
      assert Join(ps) == "";
    }
  }

  /** The name before any extension brackets: the proto name, or the JSON name unless it is empty. */
  function JsonName(fd: FieldDesc, opts: Opts): (r: string)
    ensures opts.origName ==> r == fd.name
    ensures !opts.origName ==> r == (if fd.jsonName == "" then fd.name else fd.jsonName)
  {
    if opts.origName then fd.name
    else if fd.jsonName == "" then fd.name
    else fd.jsonName
  }

  /** The key a field is written under. */
  function FieldKey(fd: FieldDesc, opts: Opts): (r: string)
    ensures fd.extension.None? ==> r == JsonName(fd, opts)
    ensures fd.extension.Some? ==> |r| >= 2 && r[0] == '[' && r[|r| - 1] == ']'
  {
    match fd.extension
    case None => JsonName(fd, opts)
    case Some(scope) =>
      if scope == "" then "[" + JsonName(fd, opts) + "]"
      else "[" + scope + "." + JsonName(fd, opts) + "]"
  }

  /** Extensions are written as `[scope.name]`, or `[name]` without a scope. */
  lemma ExtensionKey(fd: FieldDesc, opts: Opts)
    requires fd.extension.Some?
    ensures fd.extension.value == "" ==> FieldKey(fd, opts) == "[" + JsonName(fd, opts) + "]"
    ensures fd.extension.value != "" ==> FieldKey(fd, opts) == "[" + fd.extension.value + "." + JsonName(fd, opts) + "]"
  {
  }

  /** An extension's key never coincides with a plain field's key, whose name does not start with '['. */
  lemma ExtensionKeysApart(ext: FieldDesc, plain: FieldDesc, opts: Opts)
    requires ext.extension.Some? && plain.extension.None?
    requires JsonName(plain, opts) == [] || JsonName(plain, opts)[0] != '['
    ensures FieldKey(ext, opts) != FieldKey(plain, opts)
  {
  }

  /** Kinds whose text does not depend on the field descriptor. */
  predicate IsScalar(v: Value)
  {
    v.Int64Val? || v.Uint64Val? || v.Uint32Val? || v.BoolVal? || v.BytesVal? || v.StringVal?
  }

  /** The per-kind text of a value that needs no descriptor. */
  function Scalar(v: Value, opts: Opts): string
    requires IsScalar(v)
  {
    match v
    case Int64Val(i) => opts.jsonString(FormatInt(i))
    case Uint64Val(n) => opts.jsonString(FormatNat(n))
    case Uint32Val(n) => FormatNat(n)
    case BoolVal(b) => if b then "true" else "false"
    case BytesVal(bytes) => opts.jsonString(Base64.Encode(bytes))
    case StringVal(s) => opts.jsonString(s)
  }

  /** An int32: the quoted value name of a known enum number, unless enums are written as numbers. */
  function EnumText(fd: FieldDesc, i: int, opts: Opts): string
  {
    if !opts.enumsAsInts && fd.enumValues.Some? && i in fd.enumValues.value then
      opts.jsonString(fd.enumValues.value[i])
    else FormatInt(i)
  }

  /** The text of a map key, or None for a kind keys cannot have. */
  function KeyText(k: Key): (r: Option<string>)
    ensures r.None? <==> k.OtherKey?
  {
    match k
    case BoolKey(b) => Some(if b then "true" else "false")
    case Int32Key(i) => Some(FormatInt(i))
    case Int64Key(i) => Some(FormatInt(i))
    case Uint32Key(n) => Some(FormatNat(n))
    case Uint64Key(n) => Some(FormatNat(n))
    case StringKey(s) => Some(s)
    case OtherKey(_) => None
  }

  /** The first field of a list with the given number. */
  function FieldByNumber(fields: seq<FieldDesc>, number: int): (r: Option<FieldDesc>)
    ensures r.Some? ==> r.value in fields && r.value.number == number
    ensures r.None? ==> forall f | f in fields :: f.number != number
  {
    if fields == [] then None
    else if fields[0].number == number then Some(fields[0])
    else FieldByNumber(fields[1..], number)
  }

  /** The value field (number 2) of a map field's entry type. */
  function ValueField(fd: FieldDesc): (r: Option<FieldDesc>)
    ensures r.Some? ==> fd.messageType.Some? && r.value in fd.messageType.value.fields && r.value.number == 2
  {
    if fd.messageType.None? then None else FieldByNumber(fd.messageType.value.fields, 2)
  }

  lemma SingleKey(ks: set<Key>)
    requires |ks| == 1
    ensures exists k :: ks == {k}
  {
    var k :| k in ks;
    assert |ks - {k}| == 0;
    assert ks == {k};
  }

  /** The keys in the order they are written: sorted, or the one key as it is. */
  function KeyOrder(ks: set<Key>): (r: seq<Key>)
    requires |ks| <= 1 || Homogeneous(ks)
    ensures |r| == |ks| && (forall k :: k in r <==> k in ks)
    ensures Homogeneous(ks) ==> r == Sorted(ks)
  {
    if Homogeneous(ks) then Sorted(ks)
    else
      SingleKey(ks);
      var k :| k in ks;
      [k]
  }

  // The renderer proper.  Each function follows one Go function; the
  // termination measure is the descriptor being rendered, then the call depth.

  /** Message.MarshalJSONPB / marshalJSON: `{`, the entries of all fields in order, `}`. */
  function RenderMessage(md: MessageDesc, opts: Opts): (r: Out)
    decreases md, 7, 0
  {
    match FieldParts(md, |md.fields|, opts)
    case Ok(ps) => Ok("{" + Join(ps) + "}")
    case Err(e) => Err(e)
  }

  /** The entries of the first n fields, or the first field's failure. */
  function FieldParts(md: MessageDesc, n: nat, opts: Opts): (r: Result<seq<string>, Stop>)
    requires n <= |md.fields|
    decreases md, 6, n
  {
    if n == 0 then Ok([])
    else
      match FieldParts(md, n - 1, opts)
      case Err(e) => Err(e)
      case Ok(ps) =>
        (match RenderField(md.fields[n - 1], opts)
         case Ok(t) => Ok(ps + [t])
         case Err(e) => Err(e))
  }

  /** marshalKnownFieldJSON: the key, ':', then the value by its shape. */
  function RenderField(fd: FieldDesc, opts: Opts): (r: Out)
    decreases fd, 5, 0
  {
    var body :=
      if fd.defaultValue.Nil? then RenderNil(fd, opts)
      else if fd.isMap then RenderMap(fd, opts)
      else if fd.isRepeated then RenderList(fd, opts)
      else RenderValue(fd, fd.defaultValue, opts);
    match body
    case Ok(t) => Ok(opts.jsonString(FieldKey(fd, opts)) + ":" + t)
    case Err(e) => Err(e)
  }

  /** A map field: its entries in key order inside braces. */
  function RenderMap(fd: FieldDesc, opts: Opts): (r: Out)
    decreases fd, 4, 0
  {
    match fd.defaultValue
    case MapVal(m) =>
      if fd.messageType.None? then Err(Crash(NilEntryType))
      else if |m.Keys| >= 2 && !Homogeneous(m.Keys) then Err(Crash(Incomparable))
      else
        var keys := KeyOrder(m.Keys);
        (match EntryParts(fd, m, keys, |keys|, opts)
         case Ok(ps) => Ok("{" + Join(ps) + "}")
         case Err(e) => Err(e))
    case _ => Err(Crash(NotAMap))
  }

  function EntryParts(fd: FieldDesc, m: map<Key, Value>, keys: seq<Key>, n: nat, opts: Opts): (r: Result<seq<string>, Stop>)
    requires n <= |keys| && forall k | k in keys :: k in m
    decreases fd, 3, n
  {
    if n == 0 then Ok([])
    else
      match EntryParts(fd, m, keys, n - 1, opts)
      case Err(e) => Err(e)
      case Ok(ps) =>
        (match RenderEntry(fd, keys[n - 1], m[keys[n - 1]], opts)
         case Ok(t) => Ok(ps + [t])
         case Err(e) => Err(e))
  }

  /** marshalKnownFieldMapEntryJSON: the key as a JSON string, ':', then the value. */
  function RenderEntry(fd: FieldDesc, k: Key, v: Value, opts: Opts): (r: Out)
    decreases fd, 2, 0
  {
    match KeyText(k)
    case None => Err(Failure(InvalidKey))
    case Some(kt) =>
      var value := match ValueField(fd)
        case Some(vfd) => RenderValue(vfd, v, opts)
        case None => RenderBare(v, opts);
      (match value
       case Ok(t) => Ok(opts.jsonString(kt) + ":" + t)
       case Err(e) => Err(e))
  }

  /** A repeated field: its elements in order inside brackets. */
  function RenderList(fd: FieldDesc, opts: Opts): (r: Out)
    decreases fd, 4, 0
  {
    match fd.defaultValue
    case ListVal(items) =>
      (match ItemParts(fd, items, |items|, opts)
       case Ok(ps) => Ok("[" + Join(ps) + "]")
       case Err(e) => Err(e))
    case _ => Err(Crash(NotAList))
  }

  function ItemParts(fd: FieldDesc, items: seq<Value>, n: nat, opts: Opts): (r: Result<seq<string>, Stop>)
    requires n <= |items|
    decreases fd, 3, n
  {
    if n == 0 then Ok([])
    else
      match ItemParts(fd, items, n - 1, opts)
      case Err(e) => Err(e)
      case Ok(ps) =>
        (match RenderValue(fd, items[n - 1], opts)
         case Ok(t) => Ok(ps + [t])
         case Err(e) => Err(e))
  }

  /** marshalKnownFieldValueJSON: the text of one value, chosen by its kind. */
  function RenderValue(fd: FieldDesc, v: Value, opts: Opts): (r: Out)
    decreases fd, 1, 0
  {
    match v
    case Int32Val(i) => Ok(EnumText(fd, i, opts))
    case Nil => RenderNil(fd, opts)
    case MessageVal(json) => if json.Ok? then Ok(json.value) else Err(Failure(json.error))
    case MapVal(_) => Err(Crash(NotAMessage))
    case ListVal(_) => Err(Crash(NotBytes))
    case _ => Ok(Scalar(v, opts))
  }

  /** A map value whose entry type has no value field: kinds that consult the descriptor panic. */
  function RenderBare(v: Value, opts: Opts): (r: Out)
    ensures IsScalar(v) ==> r == Ok(Scalar(v, opts))
    ensures v.Int32Val? || v.Nil? || v.MapVal? || v.ListVal? ==> r.Err? && r.error.Crash?
  {
    match v
    case Int32Val(_) => Err(Crash(NilDescriptor))
    case Nil => Err(Crash(NilDescriptor))
    case MessageVal(json) => if json.Ok? then Ok(json.value) else Err(Failure(json.error))
    case MapVal(_) => Err(Crash(NotAMessage))
    case ListVal(_) => Err(Crash(NotBytes))
    case _ => Ok(Scalar(v, opts))
  }

  /** A nil value: the template of the field's message type, `null` when that fails or there is none. */
  function RenderNil(fd: FieldDesc, opts: Opts): (r: Out)
    decreases fd, 0, 0
  {
    match fd.messageType
    case None => Ok(Null)
    case Some(mt) =>
      (match RenderMessage(mt, opts)
       case Ok(s) => Ok(s)
       case Err(Failure(_)) => Ok(Null)
       case Err(Crash(c)) => Err(Crash(c)))
  }

  // Properties of the rendering.

  /** The first n field entries: one per field, in descriptor order, or the first field's stop. */
  lemma {:induction false} FieldsInOrder(md: MessageDesc, n: nat, opts: Opts)
    requires n <= |md.fields|
    ensures FieldParts(md, n, opts).Ok? ==>
      |FieldParts(md, n, opts).value| == n &&
      forall i | 0 <= i < n :: RenderField(md.fields[i], opts) == Ok(FieldParts(md, n, opts).value[i])
    ensures FieldParts(md, n, opts).Err? ==>
      exists i | 0 <= i < n :: RenderField(md.fields[i], opts) == Err(FieldParts(md, n, opts).error) &&
        forall j | 0 <= j < i :: RenderField(md.fields[j], opts).Ok?
  {
    FieldsOk(md, n, opts);
    FieldsErr(md, n, opts);
  }

  lemma {:induction false} FieldsOk(md: MessageDesc, n: nat, opts: Opts)
    requires n <= |md.fields|
    ensures FieldParts(md, n, opts).Ok? ==>
      |FieldParts(md, n, opts).value| == n &&
      forall i | 0 <= i < n :: RenderField(md.fields[i], opts) == Ok(FieldParts(md, n, opts).value[i])
  {
    if n > 0 && FieldParts(md, n, opts).Ok? {
      FieldsOk(md, n - 1, opts);
      var prev := FieldParts(md, n - 1, opts);
      var r := RenderField(md.fields[n - 1], opts);
      assert prev.Ok? && r.Ok?;
      assert |prev.value| == n - 1;
      var ps := prev.value + [r.value];
      assert |ps| == n;
      assert FieldParts(md, n, opts) == Ok(ps);
      forall i | 0 <= i < n
        ensures RenderField(md.fields[i], opts) == Ok(ps[i])
      {
        if i < n - 1 {
          assert ps[i] == prev.value[i];
        }
      }
    }
  }

  lemma {:induction false} FieldsErr(md: MessageDesc, n: nat, opts: Opts)
    requires n <= |md.fields|
    ensures FieldParts(md, n, opts).Err? ==>
      exists i | 0 <= i < n :: RenderField(md.fields[i], opts) == Err(FieldParts(md, n, opts).error) &&
        forall j | 0 <= j < i :: RenderField(md.fields[j], opts).Ok?
  {
    if n > 0 && FieldParts(md, n, opts).Err? {
      var prev := FieldParts(md, n - 1, opts);
      if prev.Err? {
        FieldsErr(md, n - 1, opts);
        assert FieldParts(md, n, opts) == prev;
      } else {
        FieldsOk(md, n - 1, opts);
        assert FieldParts(md, n, opts) == Err(RenderField(md.fields[n - 1], opts).error);
        assert forall j | 0 <= j < n - 1 :: RenderField(md.fields[j], opts).Ok?;
      }
    }
  }

  lemma {:induction false} FieldsStop(md: MessageDesc, i: nat, n: nat, opts: Opts)
    requires i <= n <= |md.fields| && FieldParts(md, i, opts).Err?
    ensures FieldParts(md, n, opts) == FieldParts(md, i, opts)
    decreases n
  {
    if n > i {
      FieldsStop(md, i, n - 1, opts);
    }
  }

  lemma FieldStep(md: MessageDesc, i: nat, opts: Opts)
    requires i < |md.fields| && FieldParts(md, i, opts).Ok?
    ensures RenderField(md.fields[i], opts).Ok? ==>
      FieldParts(md, i + 1, opts) == Ok(FieldParts(md, i, opts).value + [RenderField(md.fields[i], opts).value])
    ensures RenderField(md.fields[i], opts).Err? ==>
      FieldParts(md, i + 1, opts) == Err(RenderField(md.fields[i], opts).error)
  {
  }

  /**
   * A message renders as `{`, one entry per field in descriptor order joined
   * by ',', `}`; each entry is the quoted key, ':' and the value.  It stops
   * exactly when some field does, with the first such field's stop.
   */
  lemma MessageLayout(md: MessageDesc, opts: Opts)
    ensures RenderMessage(md, opts).Ok? <==> forall i | 0 <= i < |md.fields| :: RenderField(md.fields[i], opts).Ok?
    ensures RenderMessage(md, opts).Ok? ==>
      exists ps: seq<string> ::
        |ps| == |md.fields| &&
        RenderMessage(md, opts).value == "{" + Join(ps) + "}" &&
        forall i | 0 <= i < |ps| ::
          RenderField(md.fields[i], opts) == Ok(ps[i]) &&
          ps[i][..|opts.jsonString(FieldKey(md.fields[i], opts))| + 1] == opts.jsonString(FieldKey(md.fields[i], opts)) + ":"
    ensures RenderMessage(md, opts).Err? ==>
      exists i | 0 <= i < |md.fields| :: RenderField(md.fields[i], opts) == Err(RenderMessage(md, opts).error) &&
        forall j | 0 <= j < i :: RenderField(md.fields[j], opts).Ok?
  {
    var n := |md.fields|;
    FieldsInOrder(md, n, opts);
    if RenderMessage(md, opts).Ok? {
      var ps := FieldParts(md, n, opts).value;
      forall i | 0 <= i < |ps|
        ensures ps[i][..|opts.jsonString(FieldKey(md.fields[i], opts))| + 1] == opts.jsonString(FieldKey(md.fields[i], opts)) + ":"
      {
        FieldEntry(md.fields[i], opts);
      }
      assert RenderMessage(md, opts).value == "{" + Join(ps) + "}";
    }
  }

  /** A field's entry starts with its quoted key and ':'. */
  lemma FieldEntry(fd: FieldDesc, opts: Opts)
    ensures RenderField(fd, opts).Ok? ==>
      RenderField(fd, opts).value[..|opts.jsonString(FieldKey(fd, opts))| + 1] == opts.jsonString(FieldKey(fd, opts)) + ":"
  {
    if RenderField(fd, opts).Ok? {
      var key := opts.jsonString(FieldKey(fd, opts)) + ":";
      var t := RenderField(fd, opts).value[|key|..];
      assert RenderField(fd, opts).value == key + t;
    }
  }

  lemma {:induction false} EntriesInOrder(fd: FieldDesc, m: map<Key, Value>, keys: seq<Key>, n: nat, opts: Opts)
    requires n <= |keys| && forall k | k in keys :: k in m
    ensures EntryParts(fd, m, keys, n, opts).Ok? ==>
      |EntryParts(fd, m, keys, n, opts).value| == n &&
      forall i | 0 <= i < n :: RenderEntry(fd, keys[i], m[keys[i]], opts) == Ok(EntryParts(fd, m, keys, n, opts).value[i])
    ensures EntryParts(fd, m, keys, n, opts).Err? ==>
      exists i | 0 <= i < n :: RenderEntry(fd, keys[i], m[keys[i]], opts) == Err(EntryParts(fd, m, keys, n, opts).error)
  {
    EntriesOk(fd, m, keys, n, opts);
    EntriesErr(fd, m, keys, n, opts);
  }

  lemma {:induction false} EntriesOk(fd: FieldDesc, m: map<Key, Value>, keys: seq<Key>, n: nat, opts: Opts)
    requires n <= |keys| && forall k | k in keys :: k in m
    ensures EntryParts(fd, m, keys, n, opts).Ok? ==>
      |EntryParts(fd, m, keys, n, opts).value| == n &&
      forall i | 0 <= i < n :: RenderEntry(fd, keys[i], m[keys[i]], opts) == Ok(EntryParts(fd, m, keys, n, opts).value[i])
  {
    if n > 0 && EntryParts(fd, m, keys, n, opts).Ok? {
      EntriesOk(fd, m, keys, n - 1, opts);
      var prev := EntryParts(fd, m, keys, n - 1, opts);
      var r := RenderEntry(fd, keys[n - 1], m[keys[n - 1]], opts);
      assert prev.Ok? && r.Ok?;
      assert |prev.value| == n - 1;
      var ps := prev.value + [r.value];
      assert |ps| == n;
      assert EntryParts(fd, m, keys, n, opts) == Ok(ps);
      forall i | 0 <= i < n
        ensures RenderEntry(fd, keys[i], m[keys[i]], opts) == Ok(ps[i])
      {
        if i < n - 1 {
          assert ps[i] == prev.value[i];
        }
      }
    }
  }

  lemma {:induction false} EntriesErr(fd: FieldDesc, m: map<Key, Value>, keys: seq<Key>, n: nat, opts: Opts)
    requires n <= |keys| && forall k | k in keys :: k in m
    ensures EntryParts(fd, m, keys, n, opts).Err? ==>
      exists i | 0 <= i < n :: RenderEntry(fd, keys[i], m[keys[i]], opts) == Err(EntryParts(fd, m, keys, n, opts).error)
  {
    if n > 0 && EntryParts(fd, m, keys, n, opts).Err? {
      var prev := EntryParts(fd, m, keys, n - 1, opts);
      if prev.Err? {
        EntriesErr(fd, m, keys, n - 1, opts);
        assert EntryParts(fd, m, keys, n, opts) == prev;
      } else {
        assert EntryParts(fd, m, keys, n, opts) == Err(RenderEntry(fd, keys[n - 1], m[keys[n - 1]], opts).error);
      }
    }
  }


  lemma {:induction false} EntriesStop(fd: FieldDesc, m: map<Key, Value>, keys: seq<Key>, i: nat, n: nat, opts: Opts)
    requires i <= n <= |keys| && (forall k | k in keys :: k in m) && EntryParts(fd, m, keys, i, opts).Err?
    ensures EntryParts(fd, m, keys, n, opts) == EntryParts(fd, m, keys, i, opts)
    decreases n
  {
    if n > i {
      EntriesStop(fd, m, keys, i, n - 1, opts);
    }
  }

  lemma EntryStep(fd: FieldDesc, m: map<Key, Value>, keys: seq<Key>, i: nat, opts: Opts)
    requires i < |keys| && (forall k | k in keys :: k in m) && EntryParts(fd, m, keys, i, opts).Ok?
    ensures RenderEntry(fd, keys[i], m[keys[i]], opts).Ok? ==>
      EntryParts(fd, m, keys, i + 1, opts) == Ok(EntryParts(fd, m, keys, i, opts).value + [RenderEntry(fd, keys[i], m[keys[i]], opts).value])
    ensures RenderEntry(fd, keys[i], m[keys[i]], opts).Err? ==>
      EntryParts(fd, m, keys, i + 1, opts) == Err(RenderEntry(fd, keys[i], m[keys[i]], opts).error)
  {
  }

  /** A map with keys of one kind renders its entries in ascending key order, one per key. */
  lemma MapInKeyOrder(fd: FieldDesc, opts: Opts)
    requires fd.defaultValue.MapVal? && fd.messageType.Some?
    requires Homogeneous(fd.defaultValue.entries.Keys)
    ensures var m := fd.defaultValue.entries;
      RenderMap(fd, opts).Ok? ==>
        Ascending(Sorted(m.Keys)) &&
        exists ps: seq<string> ::
          |ps| == |m.Keys| && RenderMap(fd, opts).value == "{" + Join(ps) + "}" &&
          forall i | 0 <= i < |ps| :: RenderEntry(fd, Sorted(m.Keys)[i], m[Sorted(m.Keys)[i]], opts) == Ok(ps[i])
    ensures var m := fd.defaultValue.entries;
      RenderMap(fd, opts).Err? ==>
        exists k | k in m :: RenderEntry(fd, k, m[k], opts) == Err(RenderMap(fd, opts).error)
  {
    var m := fd.defaultValue.entries;
    var keys := Sorted(m.Keys);
    SortedEntries(fd, opts);
    EntriesInOrder(fd, m, keys, |keys|, opts);
    var parts := EntryParts(fd, m, keys, |keys|, opts);
    if parts.Ok? {
      var ps := parts.value;
      assert |ps| == |m.Keys| && RenderMap(fd, opts).value == "{" + Join(ps) + "}";
      assert forall i | 0 <= i < |ps| :: RenderEntry(fd, keys[i], m[keys[i]], opts) == Ok(ps[i]);
    } else {
      var i :| 0 <= i < |keys| && RenderEntry(fd, keys[i], m[keys[i]], opts) == Err(parts.error);
      assert keys[i] in m;
    }
  }

  /** The map branch past its checks, with its keys of one kind: the entries in sorted order. */
  lemma SortedEntries(fd: FieldDesc, opts: Opts)
    requires fd.defaultValue.MapVal? && fd.messageType.Some?
    requires Homogeneous(fd.defaultValue.entries.Keys)
    ensures var m := fd.defaultValue.entries;
      var keys := Sorted(m.Keys);
      var parts := EntryParts(fd, m, keys, |keys|, opts);
      RenderMap(fd, opts) == if parts.Ok? then Ok("{" + Join(parts.value) + "}") else Err(parts.error)
  {
  }

  /**
   * Keys of mixed or unsupported kinds panic once there are two of them; a
   * single key of an unsupported kind is an error; an empty map is `{}`.
   */
  lemma MapKeyErrors(fd: FieldDesc, opts: Opts)
    requires fd.defaultValue.MapVal? && fd.messageType.Some?
    ensures var m := fd.defaultValue.entries;
      |m.Keys| >= 2 && !Homogeneous(m.Keys) ==> RenderMap(fd, opts) == Err(Crash(Incomparable))
    ensures var m := fd.defaultValue.entries;
      (|m.Keys| == 1 && forall k | k in m :: k.OtherKey?) ==> RenderMap(fd, opts) == Err(Failure(InvalidKey))
    ensures fd.defaultValue.entries == map[] ==> RenderMap(fd, opts) == Ok("{}")
  {
    var m := fd.defaultValue.entries;
    if |m.Keys| == 1 && forall k | k in m :: k.OtherKey? {
      var keys := KeyOrder(m.Keys);
      assert keys[0] in m;
      assert EntryParts(fd, m, keys, 1, opts) == Err(Failure(InvalidKey));
    } else if m == map[] {
      assert |m.Keys| == 0;
      var keys := KeyOrder(m.Keys);
      assert EntryParts(fd, m, keys, |keys|, opts) == Ok([]);
      assert RenderMap(fd, opts) == Ok("{" + Join([]) + "}");
      assert "{" + Join([]) + "}" == "{}";
    }
  }

  /** A map field's entry type is required: without one the map branch panics. */
  lemma MapNeedsEntryType(fd: FieldDesc, opts: Opts)
    requires fd.defaultValue.MapVal? && fd.messageType.None?
    ensures RenderMap(fd, opts) == Err(Crash(NilEntryType))
  {
  }

  lemma {:induction false} ItemsInOrder(fd: FieldDesc, items: seq<Value>, n: nat, opts: Opts)
    requires n <= |items|
    ensures ItemParts(fd, items, n, opts).Ok? ==>
      |ItemParts(fd, items, n, opts).value| == n &&
      forall i | 0 <= i < n :: RenderValue(fd, items[i], opts) == Ok(ItemParts(fd, items, n, opts).value[i])
    ensures ItemParts(fd, items, n, opts).Err? ==>
      exists i | 0 <= i < n :: RenderValue(fd, items[i], opts) == Err(ItemParts(fd, items, n, opts).error)
  {
    ItemsOk(fd, items, n, opts);
    ItemsErr(fd, items, n, opts);
  }

  lemma {:induction false} ItemsOk(fd: FieldDesc, items: seq<Value>, n: nat, opts: Opts)
    requires n <= |items|
    ensures ItemParts(fd, items, n, opts).Ok? ==>
      |ItemParts(fd, items, n, opts).value| == n &&
      forall i | 0 <= i < n :: RenderValue(fd, items[i], opts) == Ok(ItemParts(fd, items, n, opts).value[i])
  {
    if n > 0 && ItemParts(fd, items, n, opts).Ok? {
      ItemsOk(fd, items, n - 1, opts);
      var prev := ItemParts(fd, items, n - 1, opts);
      var r := RenderValue(fd, items[n - 1], opts);
      assert prev.Ok? && r.Ok?;
      assert |prev.value| == n - 1;
      var ps := prev.value + [r.value];
      assert |ps| == n;
      assert ItemParts(fd, items, n, opts) == Ok(ps);
      forall i | 0 <= i < n
        ensures RenderValue(fd, items[i], opts) == Ok(ps[i])
      {
        if i < n - 1 {
          assert ps[i] == prev.value[i];
        }
      }
    }
  }

  lemma {:induction false} ItemsErr(fd: FieldDesc, items: seq<Value>, n: nat, opts: Opts)
    requires n <= |items|
    ensures ItemParts(fd, items, n, opts).Err? ==>
      exists i | 0 <= i < n :: RenderValue(fd, items[i], opts) == Err(ItemParts(fd, items, n, opts).error)
  {
    if n > 0 && ItemParts(fd, items, n, opts).Err? {
      var prev := ItemParts(fd, items, n - 1, opts);
      if prev.Err? {
        ItemsErr(fd, items, n - 1, opts);
        assert ItemParts(fd, items, n, opts) == prev;
      } else {
        assert ItemParts(fd, items, n, opts) == Err(RenderValue(fd, items[n - 1], opts).error);
      }
    }
  }


  lemma {:induction false} ItemsStop(fd: FieldDesc, items: seq<Value>, i: nat, n: nat, opts: Opts)
    requires i <= n <= |items| && ItemParts(fd, items, i, opts).Err?
    ensures ItemParts(fd, items, n, opts) == ItemParts(fd, items, i, opts)
    decreases n
  {
    if n > i {
      ItemsStop(fd, items, i, n - 1, opts);
    }
  }

  lemma ItemStep(fd: FieldDesc, items: seq<Value>, i: nat, opts: Opts)
    requires i < |items| && ItemParts(fd, items, i, opts).Ok?
    ensures RenderValue(fd, items[i], opts).Ok? ==>
      ItemParts(fd, items, i + 1, opts) == Ok(ItemParts(fd, items, i, opts).value + [RenderValue(fd, items[i], opts).value])
    ensures RenderValue(fd, items[i], opts).Err? ==>
      ItemParts(fd, items, i + 1, opts) == Err(RenderValue(fd, items[i], opts).error)
  {
  }

  /** A repeated field renders one element per item, in input order, inside brackets. */
  lemma ListLayout(fd: FieldDesc, opts: Opts)
    requires fd.defaultValue.ListVal?
    ensures var items := fd.defaultValue.items;
      RenderList(fd, opts).Ok? ==>
        exists ps: seq<string> ::
          |ps| == |items| && RenderList(fd, opts).value == "[" + Join(ps) + "]" &&
          forall i | 0 <= i < |ps| :: RenderValue(fd, items[i], opts) == Ok(ps[i])
    ensures var items := fd.defaultValue.items;
      RenderList(fd, opts).Err? ==> exists i | 0 <= i < |items| :: RenderValue(fd, items[i], opts) == Err(RenderList(fd, opts).error)
  {
    ItemsInOrder(fd, fd.defaultValue.items, |fd.defaultValue.items|, opts);
  }

  /**
   * 64-bit integers are quoted decimal strings, 32-bit ones bare decimals;
   * each text reads back as the number.
   */
  lemma IntegerTexts(fd: FieldDesc, i: int, n: nat, opts: Opts)
    requires Int64Min <= i <= Int64Max && n <= Uint64Max
    ensures RenderValue(fd, Int64Val(i), opts) == Ok(opts.jsonString(FormatInt(i))) && ParseInt64(FormatInt(i)) == Some(i)
    ensures RenderValue(fd, Uint64Val(n), opts) == Ok(opts.jsonString(FormatNat(n))) && ParseUint64(FormatNat(n)) == Some(n)
    ensures RenderValue(fd, Uint32Val(n), opts) == Ok(FormatNat(n)) && AllDigits(FormatNat(n))
    ensures (opts.enumsAsInts || fd.enumValues.None?) ==> RenderValue(fd, Int32Val(i), opts) == Ok(FormatInt(i))
  {
    ParseFormatInt(i);
    ParseFormatUint(n);
  }

  /** An enum number is written as its quoted name when known, else as a bare number. */
  lemma EnumTexts(fd: FieldDesc, i: int, opts: Opts)
    requires !opts.enumsAsInts && fd.enumValues.Some?
    requires Int64Min <= i <= Int64Max
    ensures i in fd.enumValues.value ==> RenderValue(fd, Int32Val(i), opts) == Ok(opts.jsonString(fd.enumValues.value[i]))
    ensures i !in fd.enumValues.value ==>
      RenderValue(fd, Int32Val(i), opts).Ok? && ParseInt64(RenderValue(fd, Int32Val(i), opts).value) == Some(i)
  {
    ParseFormatInt(i);
  }

  /** Bools are the words true and false; bytes are a quoted base64 text that decodes back to them. */
  lemma BoolAndBytesTexts(fd: FieldDesc, b: bool, bytes: seq<Base64.Byte>, opts: Opts)
    ensures RenderValue(fd, BoolVal(b), opts) == Ok(if b then "true" else "false")
    ensures exists e :: RenderValue(fd, BytesVal(bytes), opts) == Ok(opts.jsonString(e)) && Base64.Decode(e) == Some(bytes)
  {
    Base64.DecodeEncode(bytes);
    assert RenderValue(fd, BytesVal(bytes), opts) == Ok(opts.jsonString(Base64.Encode(bytes)));
  }

  /** A nil value never fails with an error: it is a template or `null`, unless rendering the template panics. */
  lemma NilTemplate(fd: FieldDesc, opts: Opts)
    ensures RenderNil(fd, opts).Err? ==> RenderNil(fd, opts).error.Crash?
    ensures RenderNil(fd, opts).Ok? ==>
      RenderNil(fd, opts).value == Null ||
      (fd.messageType.Some? && RenderMessage(fd.messageType.value, opts) == Ok(RenderNil(fd, opts).value))
    ensures fd.messageType.None? ==> RenderNil(fd, opts) == Ok(Null)
  {
  }

  /**
   * The defaults a descriptor library gives: a nil map for map fields, a nil
   * list for other repeated fields, nil for message fields, a number, bool,
   * string or bytes otherwise.
   */
  predicate DefaultsOk(fd: FieldDesc)
    decreases fd, 0
  {
    if fd.isMap then fd.defaultValue == MapVal(map[]) && fd.messageType.Some?
    else if fd.isRepeated then fd.defaultValue == ListVal([])
    else if fd.messageType.Some? then fd.defaultValue == Nil && TemplateOk(fd.messageType.value)
    else IsScalar(fd.defaultValue) || fd.defaultValue.Int32Val?
  }

  predicate TemplateOk(md: MessageDesc)
    decreases md, 1
  {
    forall i | 0 <= i < |md.fields| :: DefaultsOk(md.fields[i])
  }

  /** The template of a descriptor with library defaults always renders. */
  lemma {:induction false} TemplateRenders(md: MessageDesc, opts: Opts)
    requires TemplateOk(md)
    ensures RenderMessage(md, opts).Ok?
    decreases md, 1
  {
    forall i | 0 <= i < |md.fields|
      ensures RenderField(md.fields[i], opts).Ok?
    {
      FieldRenders(md.fields[i], opts);
    }
    MessageLayout(md, opts);
  }

  lemma {:induction false} FieldRenders(fd: FieldDesc, opts: Opts)
    requires DefaultsOk(fd)
    ensures RenderField(fd, opts).Ok?
    decreases fd, 0
  {
    if fd.isMap {
      MapKeyErrors(fd, opts);
    } else if fd.isRepeated {
      assert ItemParts(fd, [], 0, opts) == Ok([]);
      assert RenderList(fd, opts).Ok?;
    } else if fd.messageType.Some? {
      TemplateRenders(fd.messageType.value, opts);
    }
  }

  // The buffer and the step-by-step writers.

  /** The output buffer in compact mode: start and end write nothing, sep writes ':', next writes ','. */
  class Buffer {
    var text: string

    constructor ()
      ensures text == ""
    {
      text := "";
    }

    method Write(s: string)
      modifies this
      ensures text == old(text) + s
    {
      text := text + s;
    }

    method Sep()
      modifies this
      ensures text == old(text) + ":"
    {
      text := text + ":";
    }

    /** maybeNext: the separator before every entry but the first; the flag is cleared. */
    method MaybeNext(first: bool) returns (stillFirst: bool)
      modifies this
      ensures !stillFirst && text == old(text) + (if first then "" else ",")
    {
      if !first {
        text := text + ",";
      }
      stillFirst := false;
    }
  }

  /** A writer did what the rendering says: appended its text, or stopped as it stops. */
  predicate Wrote(st: Option<Stop>, before: string, after: string, spec: Out)
  {
    match spec
    case Ok(s) => st.None? && after == before + s
    case Err(e) => st == Some(e)
  }

  /** Message.MarshalJSONPB: a fresh compact buffer, and its text unless rendering stopped. */
  method MarshalJSONPB(md: MessageDesc, opts: Opts) returns (r: Out)
    ensures r == RenderMessage(md, opts)
    decreases md, 3
  {
    var b := new Buffer();
    var st := MarshalJSON(b, md, opts);
    if st.Some? {
      r := Err(st.value);
    } else {
      assert "" + RenderMessage(md, opts).value == RenderMessage(md, opts).value;
      r := Ok(b.text);
    }
  }

  /** marshalJSON: `{`, each field after maybeNext, `}`. */
  method MarshalJSON(b: Buffer, md: MessageDesc, opts: Opts) returns (st: Option<Stop>)
    modifies b
    ensures Wrote(st, old(b.text), b.text, RenderMessage(md, opts))
    decreases md, 2
  {
    ghost var before := b.text;
    b.Write("{");
    st := MarshalFields(b, md, opts);
    if st.None? {
      Regroup(before, "{", Join(FieldParts(md, |md.fields|, opts).value), "}");
    }
  }

  /** The fields of a message, in descriptor order, then `}`. */
  method MarshalFields(b: Buffer, md: MessageDesc, opts: Opts) returns (st: Option<Stop>)
    modifies b
    ensures FieldParts(md, |md.fields|, opts).Ok? ==>
      st.None? && b.text == old(b.text) + Join(FieldParts(md, |md.fields|, opts).value) + "}"
    ensures FieldParts(md, |md.fields|, opts).Err? ==> st == Some(FieldParts(md, |md.fields|, opts).error)
    decreases md, 1
  {
    ghost var before := b.text;
    var first := true;
    var i := 0;
    ghost var ps: seq<string> := [];
    while i < |md.fields|
      invariant 0 <= i <= |md.fields|
      invariant FieldParts(md, i, opts) == Ok(ps)
      invariant b.text == before + Join(ps)
      invariant first <==> ps == []
    {
      first := b.MaybeNext(first);
      FieldStep(md, i, opts);
      st := MarshalField(b, md.fields[i], opts);
      if st.Some? {
        FieldsStop(md, i + 1, |md.fields|, opts);
        return;
      }
      AppendPart(before, ps, RenderField(md.fields[i], opts).value, b.text);
      ps := ps + [RenderField(md.fields[i], opts).value];
      i := i + 1;
    }
    b.Write("}");
    st := None;
  }

  /** marshalKnownFieldJSON: the key and ':', then the value by its shape. */
  method MarshalField(b: Buffer, fd: FieldDesc, opts: Opts) returns (st: Option<Stop>)
    modifies b
    ensures Wrote(st, old(b.text), b.text, RenderField(fd, opts))
    decreases fd, 1
  {
    ghost var before := b.text;
    ghost var body :=
      if fd.defaultValue.Nil? then RenderNil(fd, opts)
      else if fd.isMap then RenderMap(fd, opts)
      else if fd.isRepeated then RenderList(fd, opts)
      else RenderValue(fd, fd.defaultValue, opts);
    b.Write(opts.jsonString(FieldKey(fd, opts)));
    b.Sep();
    if fd.defaultValue.Nil? {
      st := MarshalNil(b, fd, opts);
    } else if fd.isMap {
      st := MarshalMap(b, fd, opts);
    } else if fd.isRepeated {
      st := MarshalList(b, fd, opts);
    } else {
      var r := RenderValue(fd, fd.defaultValue, opts);
      if r.Err? {
        st := Some(r.error);
      } else {
        b.Write(r.value);
        st := None;
      }
    }
    if st.None? {
      Regroup(before, opts.jsonString(FieldKey(fd, opts)), ":", body.value);
    }
  }

  /** A nil value: the message type's template from a buffer of its own, `null` if that fails. */
  method MarshalNil(b: Buffer, fd: FieldDesc, opts: Opts) returns (st: Option<Stop>)
    modifies b
    ensures Wrote(st, old(b.text), b.text, RenderNil(fd, opts))
    decreases fd, 0
  {
    if fd.messageType.Some? {
      var r := MarshalJSONPB(fd.messageType.value, opts);
      if r.Ok? {
        b.Write(r.value);
        st := None;
      } else if r.error.Failure? {
        b.Write(Null);
        st := None;
      } else {
        st := Some(r.error);
      }
    } else {
      b.Write(Null);
      st := None;
    }
  }

  /** The map branch: `{`, the entries in sorted key order after maybeNext, `}`. */
  method MarshalMap(b: Buffer, fd: FieldDesc, opts: Opts) returns (st: Option<Stop>)
    modifies b
    ensures Wrote(st, old(b.text), b.text, RenderMap(fd, opts))
  {
    ghost var before := b.text;
    if !fd.defaultValue.MapVal? {
      return Some(Crash(NotAMap));
    }
    var m := fd.defaultValue.entries;
    b.Write("{");
    if fd.messageType.None? {
      return Some(Crash(NilEntryType));
    }
    if |m.Keys| >= 2 && !Homogeneous(m.Keys) {
      return Some(Crash(Incomparable));
    }
    var keys := KeyOrder(m.Keys);
    st := MarshalEntries(b, fd, m, keys, opts);
    if st.None? {
      Regroup(before, "{", Join(EntryParts(fd, m, keys, |keys|, opts).value), "}");
    }
  }

  /** The entries of a map branch, in the given key order, then `}`. */
  method MarshalEntries(b: Buffer, fd: FieldDesc, m: map<Key, Value>, keys: seq<Key>, opts: Opts) returns (st: Option<Stop>)
    requires forall k | k in keys :: k in m
    modifies b
    ensures EntryParts(fd, m, keys, |keys|, opts).Ok? ==>
      st.None? && b.text == old(b.text) + Join(EntryParts(fd, m, keys, |keys|, opts).value) + "}"
    ensures EntryParts(fd, m, keys, |keys|, opts).Err? ==> st == Some(EntryParts(fd, m, keys, |keys|, opts).error)
  {
    ghost var before := b.text;
    var first := true;
    var i := 0;
    ghost var ps: seq<string> := [];
    while i < |keys|
      invariant 0 <= i <= |keys|
      invariant EntryParts(fd, m, keys, i, opts) == Ok(ps)
      invariant b.text == before + Join(ps)
      invariant first <==> ps == []
    {
      first := b.MaybeNext(first);
      var r := RenderEntry(fd, keys[i], m[keys[i]], opts);
      EntryStep(fd, m, keys, i, opts);
      if r.Err? {
        EntriesStop(fd, m, keys, i + 1, |keys|, opts);
        return Some(r.error);
      }
      b.Write(r.value);
      AppendPart(before, ps, r.value, b.text);
      ps := ps + [r.value];
      i := i + 1;
    }
    b.Write("}");
    st := None;
  }

  /** The repeated branch: `[`, the elements in order after maybeNext, `]`. */
  method MarshalList(b: Buffer, fd: FieldDesc, opts: Opts) returns (st: Option<Stop>)
    modifies b
    ensures Wrote(st, old(b.text), b.text, RenderList(fd, opts))
  {
    ghost var before := b.text;
    if !fd.defaultValue.ListVal? {
      return Some(Crash(NotAList));
    }
    var items := fd.defaultValue.items;
    b.Write("[");
    st := MarshalItems(b, fd, items, opts);
    if st.None? {
      Regroup(before, "[", Join(ItemParts(fd, items, |items|, opts).value), "]");
    }
  }

  /** The elements of a repeated branch, in order, then `]`. */
  method MarshalItems(b: Buffer, fd: FieldDesc, items: seq<Value>, opts: Opts) returns (st: Option<Stop>)
    modifies b
    ensures ItemParts(fd, items, |items|, opts).Ok? ==>
      st.None? && b.text == old(b.text) + Join(ItemParts(fd, items, |items|, opts).value) + "]"
    ensures ItemParts(fd, items, |items|, opts).Err? ==> st == Some(ItemParts(fd, items, |items|, opts).error)
  {
    ghost var before := b.text;
    var first := true;
    var i := 0;
    ghost var ps: seq<string> := [];
    while i < |items|
      invariant 0 <= i <= |items|
      invariant ItemParts(fd, items, i, opts) == Ok(ps)
      invariant b.text == before + Join(ps)
      invariant first <==> ps == []
    {
      first := b.MaybeNext(first);
      var r := RenderValue(fd, items[i], opts);
      ItemStep(fd, items, i, opts);
      if r.Err? {
        ItemsStop(fd, items, i + 1, |items|, opts);
        return Some(r.error);
      }
      b.Write(r.value);
      AppendPart(before, ps, r.value, b.text);
      ps := ps + [r.value];
      i := i + 1;
    }
    b.Write("]");
    st := None;
  }
}
