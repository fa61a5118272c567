/** An ORM field: a value plus a metadata array, with the property protocol
    of \Leap\Core\DB\ORM\Field (__get, __set, reset, validate) and the blob
    specialisation \Leap\Core\DB\ORM\Field\Blob. The two classes are one Dafny
    class whose `kind` says which of the overriding methods apply. */
module OrmField {
  import opened Wrappers
  import opened PhpValue

  /** Which class the field is: the abstract base's behaviour, or Blob's
      overrides of __set and validate. */
  datatype FieldKind = Generic | Blob

  /** The exceptions a field throws. */
  datatype FieldError =
    | ValidationError(value: Value)
    | InvalidProperty(key: string)

  /** What a field calls but does not define: PHP's settype, the instanceof
      test against a class named by a string, the model's callback method
      (named by the metadata's 'callback' entry) applied to a value, and PHP's
      loose comparison ==, which in_array uses. */
  datatype Env = Env(
    settype: (Value, string) -> Value,
    isInstance: (Value, string) -> bool,
    callback: (Value, Value) -> bool,
    looseEquals: (Value, Value) -> bool)

  type Metadata = map<string, Value>

  /** The field's observable state: its value and its metadata array. */
  datatype FieldState = FieldState(value: Value, metadata: Metadata)

  /** $metadata[$key]: PHP reads a missing key as NULL. */
  function Meta(m: Metadata, key: string): (v: Value)
    ensures key !in m ==> v == Null
  {
    if key in m then m[key] else Null
  }

  /** isset($metadata[$key]): present and not NULL. */
  predicate Isset(m: Metadata, key: string) {
    Meta(m, key) != Null
  }

  /** The declared PHP type, as the string settype and instanceof receive. */
  function TypeName(m: Metadata): string {
    if Meta(m, "type").Str? then Meta(m, "type").s else ""
  }

  /** The metadata of a freshly constructed field of the given type. */
  function FreshMetadata(fieldType: string): (m: Metadata)
    ensures m.Keys == {"control", "default", "modified", "nullable", "savable", "type"}
  {
    map["control" := Str("auto"), "default" := Null, "modified" := Bool(false),
        "nullable" := Bool(true), "savable" := Bool(true), "type" := Str(fieldType)]
  }

  /** in_array($v, $list) with its default loose comparison; a metadata entry
      that is not an array contains nothing. */
  predicate InArray(env: Env, v: Value, list: Value) {
    list.List? && exists x :: x in list.items && env.looseEquals(v, x)
  }

  /** Field::validate: a value fails only when an enum is set and the value is
      not in it. */
  predicate EnumAllows(env: Env, m: Metadata, v: Value) {
    !(Isset(m, "enum") && !InArray(env, v, Meta(m, "enum")))
  }

  /** $this->validate($v), dispatched on the class: Blob additionally rejects a
      non-NULL value that is not an instance of the declared type. */
  predicate Validate(env: Env, kind: FieldKind, m: Metadata, v: Value): (r: bool)
    ensures !Isset(m, "enum") && (kind == Generic || v == Null || env.isInstance(v, TypeName(m))) ==> r
    ensures Meta(m, "enum").List? ==> (r ==> exists x :: x in Meta(m, "enum").items && env.looseEquals(v, x))
    ensures kind == Blob && v != Null && !env.isInstance(v, TypeName(m)) ==> !r
  {
    match kind
    case Generic => EnumAllows(env, m, v)
    case Blob => (v != Null ==> env.isInstance(v, TypeName(m))) && EnumAllows(env, m, v)
  }

  /** The value __set('value', $v) goes on to store, before the callback:
      an Expression as it is; another non-NULL value converted (settype for
      the base class, a string wrapped into a ByteString for Blob) and then
      validated; NULL replaced by the default on a non-nullable field. */
  function Coerce(env: Env, kind: FieldKind, m: Metadata, v: Value): Result<Value, FieldError> {
    if v.Expression? then Success(v)
    else if v != Null then
      var c := match kind
        case Generic => env.settype(v, TypeName(m))
        case Blob => if v.Str? then ByteString(v.s) else v;
      if Validate(env, kind, m, c) then Success(c) else Failure(ValidationError(c))
    else if !Truthy(Meta(m, "nullable")) then Success(Meta(m, "default"))
    else Success(Null)
  }

  /** __set($key, $v) as a transition: the new state, or the exception. */
  function SetProperty(env: Env, kind: FieldKind, s: FieldState, key: string, v: Value): (r: Result<FieldState, FieldError>)
    ensures key != "value" && key != "modified" ==> r == Failure(InvalidProperty(key))
    ensures r.Failure? && key == "value" ==> r.error.ValidationError?
    ensures r.Success? ==> "modified" in r.value.metadata && r.value.metadata == s.metadata["modified" := r.value.metadata["modified"]]
    ensures r.Success? && key == "modified" ==> r.value.value == s.value
  {
    if key == "value" then
      match Coerce(env, kind, s.metadata, v)
      case Failure(e) => Failure(e)
      case Success(c) =>
        if Isset(s.metadata, "callback") && !env.callback(Meta(s.metadata, "callback"), c) then
          Failure(ValidationError(c))
        else
          Success(FieldState(c, s.metadata["modified" := Bool(true)]))
    else if key == "modified" then
      Success(FieldState(s.value, s.metadata["modified" := Bool(Truthy(v))]))
    else
      Failure(InvalidProperty(key))
  }

  /** __get($key): the value, a metadata entry, or the exception. */
  function GetProperty(s: FieldState, key: string): (r: Result<Value, FieldError>)
    ensures r.Failure? <==> key != "value" && key !in s.metadata
    ensures r.Failure? ==> r.error == InvalidProperty(key)
    ensures key == "value" ==> r == Success(s.value)
    ensures key != "value" && key in s.metadata ==> r == Success(s.metadata[key])
  {
    if key == "value" then Success(s.value)
    else if key in s.metadata then Success(s.metadata[key])
    else Failure(InvalidProperty(key))
  }

  /** reset() as a transition. */
  function ResetState(s: FieldState): (r: FieldState)
    ensures r.value == Meta(s.metadata, "default")
    ensures r.metadata == s.metadata["modified" := Bool(false)]
  {
    FieldState(Meta(s.metadata, "default"), s.metadata["modified" := Bool(false)])
  }

  /** The state a Blob constructor builds from its options, or the exception
      it throws when the resolved default does not validate. */
  function BlobInit(env: Env, options: Metadata): (r: Result<FieldState, FieldError>)
    ensures r.Success? ==> Meta(r.value.metadata, "default") == r.value.value
    ensures r.Success? ==> r.value.metadata.Keys == BlobMetadata(options).Keys + {"default"}
    ensures r.Failure? ==> r == Failure(ValidationError(BlobDefault(options, BlobMetadata(options))))
  {
    var m := BlobMetadata(options);
    var d := BlobDefault(options, m);
    if !d.Expression? && !Validate(env, Blob, m, d) then Failure(ValidationError(d))
    else Success(FieldState(d, m["default" := d]))
  }

  /** The metadata of a Blob before its default is stored: the base class's
      with type 'Data', each supplied option cast, and the control forced to
      'textarea'. */
  function BlobMetadata(options: Metadata): (m: Metadata)
    ensures FreshMetadata("Data").Keys <= m.Keys
    ensures forall k :: k in m ==> k in FreshMetadata("Data") || k in options
  {
    var m := FreshMetadata("Data");
    var m := if Isset(options, "savable") then m["savable" := Bool(Truthy(options["savable"]))] else m;
    var m := if Isset(options, "nullable") then m["nullable" := Bool(Truthy(options["nullable"]))] else m;
    var m := if Isset(options, "filter") then m["filter" := StringCast(options["filter"])] else m;
    var m := if Isset(options, "callback") then m["callback" := StringCast(options["callback"])] else m;
    var m := m["control" := Str("textarea")];
    if Isset(options, "label") then m["label" := StringCast(options["label"])] else m
  }

  /** The supplied default if set; otherwise an empty ByteString for a
      non-nullable blob and NULL for a nullable one. */
  function BlobDefault(options: Metadata, m: Metadata): Value {
    if Isset(options, "default") then options["default"]
    else if !Truthy(Meta(m, "nullable")) then ByteString("")
    else Null
  }

  /** A fresh field: value and default NULL, unmodified, nullable, savable,
      control 'auto', the given type; and no other metadata. */
  lemma FreshField(fieldType: string)
    ensures var s := FieldState(Null, FreshMetadata(fieldType));
      && GetProperty(s, "value") == Success(Null)
      && GetProperty(s, "default") == Success(Null)
      && GetProperty(s, "modified") == Success(Bool(false))
      && GetProperty(s, "nullable") == Success(Bool(true))
      && GetProperty(s, "savable") == Success(Bool(true))
      && GetProperty(s, "control") == Success(Str("auto"))
      && GetProperty(s, "type") == Success(Str(fieldType))
      && GetProperty(s, "enum") == Failure(InvalidProperty("enum"))
  {
  }

  /** Without an enum every value validates. */
  lemma NoEnumAcceptsAll(env: Env, m: Metadata, v: Value)
    requires !Isset(m, "enum")
    ensures Validate(env, Generic, m, v)
  {
  }

  /** With an enum list, exactly its members validate. */
  lemma EnumDecides(env: Env, m: Metadata, items: seq<Value>, v: Value)
    requires Meta(m, "enum") == List(items)
    ensures Validate(env, Generic, m, v) <==> exists x :: x in items && env.looseEquals(v, x)
  {
  }

  /** Under a comparison that only identifies equal values, the enum list
      admits exactly its own members. */
  lemma StrictEnumDecides(env: Env, m: Metadata, items: seq<Value>, v: Value)
    requires Meta(m, "enum") == List(items)
    requires forall x :: x in items ==> (env.looseEquals(v, x) <==> v == x)
    ensures Validate(env, Generic, m, v) <==> v in items
  {
  }

  /** __set('value', $v) on a base-class field, for a value that is neither NULL
      nor an Expression: the value is converted with settype to the declared
      type; a converted value that fails validation makes __set throw, and a
      successful __set stores the converted value. */
  lemma SetConverts(env: Env, s: FieldState, v: Value)
    requires v != Null && !v.Expression?
    ensures var c := env.settype(v, TypeName(s.metadata));
      && (!Validate(env, Generic, s.metadata, c) ==> SetProperty(env, Generic, s, "value", v) == Failure(ValidationError(c)))
      && (SetProperty(env, Generic, s, "value", v).Success? ==> SetProperty(env, Generic, s, "value", v).value.value == c)
  {
  }

  /** The same for Blob: a string is first wrapped into a ByteString, any other
      value is kept, and the result is validated and stored. */
  lemma BlobSetConverts(env: Env, s: FieldState, v: Value)
    requires v != Null && !v.Expression?
    ensures var c := if v.Str? then ByteString(v.s) else v;
      && (!Validate(env, Blob, s.metadata, c) ==> SetProperty(env, Blob, s, "value", v) == Failure(ValidationError(c)))
      && (SetProperty(env, Blob, s, "value", v).Success? ==> SetProperty(env, Blob, s, "value", v).value.value == c)
  {
  }

  /** Blob rejects a non-NULL value of another type, whatever the enum says;
      for NULL and for instances of the type it decides as the base class. */
  lemma BlobValidate(env: Env, m: Metadata, v: Value)
    ensures v != Null && !env.isInstance(v, TypeName(m)) ==> !Validate(env, Blob, m, v)
    ensures v == Null || env.isInstance(v, TypeName(m)) ==> (Validate(env, Blob, m, v) <==> Validate(env, Generic, m, v))
  {
  }

  /** __set throws exactly when the key is neither 'value' nor 'modified',
      when the converted value fails validation, or when the callback rejects
      the value about to be stored. */
  lemma SetFailures(env: Env, kind: FieldKind, s: FieldState, key: string, v: Value)
    ensures SetProperty(env, kind, s, key, v).Failure? <==>
      || (key != "value" && key != "modified")
      || (key == "value" && Coerce(env, kind, s.metadata, v).Failure?)
      || (key == "value" && Coerce(env, kind, s.metadata, v).Success? && Isset(s.metadata, "callback")
          && !env.callback(Meta(s.metadata, "callback"), Coerce(env, kind, s.metadata, v).value))
  {
  }

  /** A successful __set('value', $v) marks the field modified, stores the
      converted value, which __get('value') then returns, and leaves every
      other metadata entry as it was. */
  lemma SetValueSuccess(env: Env, kind: FieldKind, s: FieldState, v: Value)
    requires SetProperty(env, kind, s, "value", v).Success?
    ensures var t := SetProperty(env, kind, s, "value", v).value;
      && GetProperty(t, "value") == Success(Coerce(env, kind, s.metadata, v).value)
      && GetProperty(t, "modified") == Success(Bool(true))
      && t.metadata.Keys == s.metadata.Keys + {"modified"}
      && forall k :: k != "modified" ==> Meta(t.metadata, k) == Meta(s.metadata, k)
  {
  }

  /** A non-NULL value other than an Expression is only ever stored once it
      has passed validation. */
  lemma StoredValueValidates(env: Env, kind: FieldKind, s: FieldState, v: Value)
    requires v != Null && !v.Expression?
    requires SetProperty(env, kind, s, "value", v).Success?
    ensures Validate(env, kind, s.metadata, SetProperty(env, kind, s, "value", v).value.value)
  {
  }

  /** Setting NULL stores the default on a non-nullable field and NULL on a
      nullable one, whenever the callback (if any) accepts that value. */
  lemma SetNull(env: Env, kind: FieldKind, s: FieldState)
    requires SetProperty(env, kind, s, "value", Null).Success?
    ensures SetProperty(env, kind, s, "value", Null).value ==
      FieldState(if Truthy(Meta(s.metadata, "nullable")) then Null else Meta(s.metadata, "default"),
                 s.metadata["modified" := Bool(true)])
  {
  }

  /** An Expression is stored verbatim, neither converted nor validated; only
      the callback may still reject it. */
  lemma SetExpression(env: Env, kind: FieldKind, s: FieldState, sql: string)
    ensures SetProperty(env, kind, s, "value", Expression(sql)).Success? <==>
      !(Isset(s.metadata, "callback") && !env.callback(Meta(s.metadata, "callback"), Expression(sql)))
    ensures SetProperty(env, kind, s, "value", Expression(sql)).Success? ==>
      SetProperty(env, kind, s, "value", Expression(sql)).value == FieldState(Expression(sql), s.metadata["modified" := Bool(true)])
  {
  }

  /** __set('modified', $x) always succeeds and changes only the flag, to
      (bool) $x: the value and every other entry stay. */
  lemma SetModifiedOnlyFlag(env: Env, kind: FieldKind, s: FieldState, x: Value)
    ensures var r := SetProperty(env, kind, s, "modified", x);
      && r.Success?
      && r.value.value == s.value
      && GetProperty(r.value, "modified") == Success(Bool(Truthy(x)))
      && r.value.metadata.Keys == s.metadata.Keys + {"modified"}
      && forall k :: k != "modified" ==> Meta(r.value.metadata, k) == Meta(s.metadata, k)
  {
  }

  /** Any other key throws InvalidProperty, even one __get can read. */
  lemma SetUnknownKey(env: Env, kind: FieldKind, s: FieldState, key: string, v: Value)
    requires key != "value" && key != "modified"
    ensures SetProperty(env, kind, s, key, v) == Failure(InvalidProperty(key))
  {
  }

  /** After reset() the value is the default and the field is unmodified. */
  lemma ResetRestoresDefault(s: FieldState)
    ensures GetProperty(ResetState(s), "value") == Success(Meta(s.metadata, "default"))
    ensures GetProperty(ResetState(s), "modified") == Success(Bool(false))
    ensures forall k :: k != "modified" ==> Meta(ResetState(s).metadata, k) == Meta(s.metadata, k)
  {
  }

  /** reset() twice is reset() once. */
  lemma ResetIdempotent(s: FieldState)
    ensures ResetState(ResetState(s)) == ResetState(s)
  {
    assert Meta(ResetState(s).metadata, "default") == Meta(s.metadata, "default");
    assert ResetState(s).metadata["modified" := Bool(false)] == s.metadata["modified" := Bool(false)];
  }

  /** reset() undoes any successful __set: setting neither the value nor the
      flag survives it. */
  lemma ResetUndoesSet(env: Env, kind: FieldKind, s: FieldState, key: string, v: Value)
    requires SetProperty(env, kind, s, key, v).Success?
    ensures ResetState(SetProperty(env, kind, s, key, v).value) == ResetState(s)
  {
    var t := SetProperty(env, kind, s, key, v).value;
    assert Meta(t.metadata, "default") == Meta(s.metadata, "default");
    assert t.metadata["modified" := Bool(false)] == s.metadata["modified" := Bool(false)];
  }

  /** A Blob's control is 'textarea' and its type 'Data', whatever the
      options say. */
  lemma BlobFixedKeys(options: Metadata)
    ensures var m := BlobMetadata(options);
      && Meta(m, "control") == Str("textarea")
      && TypeName(m) == "Data"
  {
  }

  /** Savable and nullable keep the base class's TRUE unless supplied, and are
      then the supplied value cast to bool. */
  lemma BlobFlags(options: Metadata)
    ensures var m := BlobMetadata(options);
      && Meta(m, "savable") == (if Isset(options, "savable") then Bool(Truthy(options["savable"])) else Bool(true))
      && Meta(m, "nullable") == (if Isset(options, "nullable") then Bool(Truthy(options["nullable"])) else Bool(true))
  {
  }

  /** Filter, callback and label appear only when supplied, and then as the
      supplied value cast to string. */
  lemma BlobOptionalKeys(options: Metadata)
    ensures var m := BlobMetadata(options);
      && ("filter" in m <==> Isset(options, "filter"))
      && ("callback" in m <==> Isset(options, "callback"))
      && ("label" in m <==> Isset(options, "label"))
      && (Isset(options, "filter") ==> m["filter"] == StringCast(options["filter"]))
      && (Isset(options, "callback") ==> m["callback"] == StringCast(options["callback"]))
      && (Isset(options, "label") ==> m["label"] == StringCast(options["label"]))
  {
  }

  /** A constructed Blob holds its default as its value; that default is the
      supplied one when there is one, else an empty ByteString for a
      non-nullable blob, else NULL. */
  lemma BlobInitDefault(env: Env, options: Metadata)
    requires BlobInit(env, options).Success?
    ensures var s := BlobInit(env, options).value;
      && Meta(s.metadata, "default") == s.value
      && (Isset(options, "default") ==> s.value == options["default"])
      && (!Isset(options, "default") && Isset(options, "nullable") && !Truthy(options["nullable"]) ==> s.value == ByteString(""))
      && (!Isset(options, "default") && !(Isset(options, "nullable") && !Truthy(options["nullable"])) ==> s.value == Null)
      && Meta(s.metadata, "modified") == Bool(false)
  {
    BlobFlags(options);
  }

  /** Construction throws exactly when the resolved default is neither an
      Expression nor NULL nor an instance of the declared type. */
  lemma BlobInitFails(env: Env, options: Metadata)
    ensures var m := BlobMetadata(options);
      var d := BlobDefault(options, m);
      BlobInit(env, options).Failure? <==> !d.Expression? && d != Null && !env.isInstance(d, "Data")
  {
    BlobFixedKeys(options);
  }

  /** A string set on a Blob is stored as a ByteString of that string. */
  lemma BlobWrapsString(env: Env, s: FieldState, text: string)
    requires SetProperty(env, Blob, s, "value", Str(text)).Success?
    ensures SetProperty(env, Blob, s, "value", Str(text)).value.value == ByteString(text)
  {
  }

  class Field {
    const kind: FieldKind
    const env: Env
    var value: Value
    var metadata: Metadata

    function State(): FieldState
      reads this
    {
      FieldState(value, metadata)
    }

    /** Field::__construct($model, $type). */
    constructor(env: Env, kind: FieldKind, fieldType: string)
      ensures this.env == env && this.kind == kind
      ensures State() == FieldState(Null, FreshMetadata(fieldType))
    {
      this.env := env;
      this.kind := kind;
      new;
      metadata := map[];
      metadata := metadata["control" := Str("auto")];
      metadata := metadata["default" := Null];
      metadata := metadata["modified" := Bool(false)];
      metadata := metadata["nullable" := Bool(true)];
      metadata := metadata["savable" := Bool(true)];
      metadata := metadata["type" := Str(fieldType)];
      value := Null;
    }

    /** __set($key, $v): on success the state SetProperty gives, on an
        exception no change at all. */
    method Set(key: string, v: Value) returns (r: Outcome<FieldError>)
      modifies this
      ensures r == SetProperty(env, kind, old(State()), key, v).ToOutcome()
      ensures r.Pass? ==> State() == SetProperty(env, kind, old(State()), key, v).value
      ensures r.Fail? ==> State() == old(State())
    {
      if key == "value" {
        var x := v;
        if !x.Expression? {
          if x != Null {
            match kind {
              case Generic => x := env.settype(x, TypeName(metadata));
              case Blob => if x.Str? { x := ByteString(x.s); }
            }
            if !Validate(env, kind, metadata, x) {
              return Fail(ValidationError(x));
            }
          } else if !Truthy(Meta(metadata, "nullable")) {
            x := Meta(metadata, "default");
          }
        }
        if Isset(metadata, "callback") && !env.callback(Meta(metadata, "callback"), x) {
          return Fail(ValidationError(x));
        }
        metadata := metadata["modified" := Bool(true)];
        value := x;
        r := Pass;
      } else if key == "modified" {
        metadata := metadata["modified" := Bool(Truthy(v))];
        r := Pass;
      } else {
        r := Fail(InvalidProperty(key));
      }
    }

    /** reset(). */
    method Reset()
      modifies this
      ensures State() == ResetState(old(State()))
    {
      value := Meta(metadata, "default");
      metadata := metadata["modified" := Bool(false)];
    }

    /** The option handling of Blob::__construct on the metadata of a freshly
        constructed 'Data' field. */
    static method ApplyBlobOptions(base: Metadata, options: Metadata) returns (m: Metadata)
      requires base == FreshMetadata("Data")
      ensures m == BlobMetadata(options)
    {
      m := base;
      if Isset(options, "savable") {
        m := m["savable" := Bool(Truthy(options["savable"]))];
      }
      if Isset(options, "nullable") {
        m := m["nullable" := Bool(Truthy(options["nullable"]))];
      }
      if Isset(options, "filter") {
        m := m["filter" := StringCast(options["filter"])];
      }
      if Isset(options, "callback") {
        m := m["callback" := StringCast(options["callback"])];
      }
      m := m["control" := Str("textarea")];
      if Isset(options, "label") {
        m := m["label" := StringCast(options["label"])];
      }
    }

    /** Blob::__construct($model, $metadata): builds the field step by step and
        throws, returning no field, when the default does not validate. */
    static method NewBlob(env: Env, options: Metadata) returns (r: Result<Field, FieldError>)
      ensures r.Success? <==> BlobInit(env, options).Success?
      ensures r.Failure? ==> r.error == BlobInit(env, options).error
      ensures r.Success? ==> fresh(r.value) && r.value.kind == Blob && r.value.env == env
      ensures r.Success? ==> r.value.State() == BlobInit(env, options).value
    {
      var f := new Field(env, Blob, "Data");
      var m := ApplyBlobOptions(f.metadata, options);
      var d;
      if Isset(options, "default") {
        d := options["default"];
      } else if !Truthy(Meta(m, "nullable")) {
        d := ByteString("");
      } else {
        d := Null;
      }
      assert d == BlobDefault(options, m);
      ghost var ok := d.Expression? || Validate(env, Blob, m, d);
      assert BlobInit(env, options) == if ok then Success(FieldState(d, m["default" := d])) else Failure(ValidationError(d));
      if !d.Expression? {
        if !Validate(env, Blob, m, d) {
          return Failure(ValidationError(d));
        }
      }
      f.metadata := m["default" := d];
      f.value := d;
      assert f.State() == FieldState(d, m["default" := d]);
      r := Success(f);
    }
  }
}
