/**
 * Typed field values (fields.py). A field is an immutable name/value pair of
 * text plus a kind tag; the kind decides the data type name that is sent to
 * the remote schema when the field has to be created there.
 */
module Fields {
  import opened Wrappers

  /** The classes of fields.py: GenericField and its three subclasses. */
  datatype Kind = Untyped | StringKind | IntegerKind | FloatKind

  /** One measurement: `name` and `value` are already text (fields.py:8-9). */
  datatype Field = Field(name: string, value: string, kind: Kind)

  /**
   * The `dataType` attribute of each class: None for a GenericField, and the
   * remote type name for each subclass (fields.py:10, 26, 39, 52).
   */
  function DataType(k: Kind): Option<string>
  {
    match k
    case Untyped => None
    case StringKind => Some("string")
    case IntegerKind => Some("integer")
    case FloatKind => Some("float")
  }

  /** `GenericField(name, value)` (fields.py:7-10). */
  function GenericField(name: string, value: string): (f: Field)
    ensures f.name == name && f.value == value
    ensures DataType(f.kind) == None
  {
    Field(name, value, Untyped)
  }

  /** `StringField(name, value)` (fields.py:17-26). */
  function StringField(name: string, value: string): (f: Field)
    ensures f.name == name && f.value == value
    ensures DataType(f.kind) == Some("string")
  {
    Field(name, value, StringKind)
  }

  /** `IntegerField(name, value)` (fields.py:37-39). */
  function IntegerField(name: string, value: string): (f: Field)
    ensures f.name == name && f.value == value
    ensures DataType(f.kind) == Some("integer")
  {
    Field(name, value, IntegerKind)
  }

  /** `FloatField(name, value)` (fields.py:50-52). */
  function FloatField(name: string, value: string): (f: Field)
    ensures f.name == name && f.value == value
    ensures DataType(f.kind) == Some("float")
  {
    Field(name, value, FloatKind)
  }

  /**
   * Every subclass constructor first runs GenericField's with the same
   * arguments (`super().__init__`), so it agrees with it on name and value
   * and differs only in the data type.
   */
  lemma SubclassesExtendGeneric(name: string, value: string)
    ensures var g := GenericField(name, value);
      && StringField(name, value) == g.(kind := StringKind)
      && IntegerField(name, value) == g.(kind := IntegerKind)
      && FloatField(name, value) == g.(kind := FloatKind)
  {
  }

  /** Each kind maps to its own remote type name: the tags are one-to-one. */
  lemma DataTypeInjective(k1: Kind, k2: Kind)
    requires DataType(k1) == DataType(k2)
    ensures k1 == k2
  {
  }
}
