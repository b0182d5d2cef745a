/**
 * The Hamba store: an in-memory key/value table kept as three parallel
 * slices (keys, values, readonly flags).  Every operation locates an entry
 * with a linear first-match search and then reads or changes that one
 * position.
 *
 * `State` is the value-level view of the three slices and gives each
 * operation as a function; the class `Hamba` holds the slices as fields
 * and its methods are proved to change them exactly as those functions say.
 */
module Hamba {
  import opened Wrappers

  /** The error values of the store; a Go `nil` error is `None`. */
  datatype Error = IsNotValidType | IsNotExistKey | ItIsReadonly

  /** Go's `int` (on a 64-bit platform) and the unsigned widths the getters return. */
  type Int64 = x: int | -0x8000_0000_0000_0000 <= x < 0x8000_0000_0000_0000
  type Uint8 = x: int | 0 <= x < 0x100
  type Uint16 = x: int | 0 <= x < 0x1_0000
  type Uint32 = x: int | 0 <= x < 0x1_0000_0000
  type Uint64 = x: int | 0 <= x < 0x1_0000_0000_0000_0000

  /**
   * A floating-point value as a parser hands it back.  Rounding to 32 or 64
   * bits happens inside the parser, which this model leaves opaque.
   */
  datatype Float = Finite(r: real) | PosInf | NegInf | NaN
  datatype Complex = Complex(re: Float, im: Float)

  /**
   * What a typed getter gives back: Go's `(value, error)` pair, or
   * `ParseFailure` where the source panics because the stored text does not
   * parse as the requested type.
   */
  datatype Reply<T> = Returned(value: T, err: Option<Error>) | ParseFailure(text: string)

  /** The outcome of an operation that may change the store. */
  datatype Outcome = Outcome(after: State, err: Option<Error>)

  // ---------------------------------------------------------------------
  // find, deleteElement, checkValidType
  // ---------------------------------------------------------------------

  /** The position of the first element equal to `val`, or -1 when there is none. */
  function FirstIndex(slice: seq<string>, val: string): (i: int)
    ensures -1 <= i < |slice|
    ensures i == -1 <==> val !in slice
    ensures 0 <= i ==> slice[i] == val
    ensures forall j :: 0 <= j < i ==> slice[j] != val
  {
    if |slice| == 0 then -1
    else if slice[0] == val then 0
    else
      var j := FirstIndex(slice[1..], val);
      if j == -1 then -1 else j + 1
  }

  /** The linear scan of `find`, returning at the first match. */
  method Find(slice: seq<string>, val: string) returns (i: int)
    ensures i == FirstIndex(slice, val)
  {
    var n := 0;
    while n < |slice|
      invariant 0 <= n <= |slice|
      invariant forall j :: 0 <= j < n ==> slice[j] != val
    {
      if slice[n] == val {
        return n;
      }
      n := n + 1;
    }
    return -1;
  }

  /** Removes position `i`; later elements move down by one. */
  function DeleteElement<T>(slice: seq<T>, i: int): (r: seq<T>)
    requires 0 <= i < |slice|
    ensures |r| == |slice| - 1
    ensures forall j {:trigger r[j]} :: 0 <= j < i ==> r[j] == slice[j]
    ensures forall j {:trigger r[j]} :: i <= j < |r| ==> r[j] == slice[j + 1]
    ensures multiset(r) + multiset{slice[i]} == multiset(slice)
  {
    assert slice == slice[..i] + [slice[i]] + slice[i + 1..];
    slice[..i] + slice[i + 1..]
  }

  /** The type names `checkValidType` accepts, spelled as the source spells them. */
  const VALID_TYPES: seq<string> :=
    ["bool", "string", "int", "float32", "float64", "complex64", "complex128",
     "unit8", "uint16", "uint32", "uint64"]

  /** `nil` exactly for the eleven listed names, `errIsNotValidType` otherwise. */
  function CheckValidType(valueType: string): (err: Option<Error>)
    ensures err == None || err == Some(IsNotValidType)
    ensures err == None <==> valueType in VALID_TYPES
  {
    if FirstIndex(VALID_TYPES, valueType) == -1 then Some(IsNotValidType) else None
  }

  /** The Go types the typed getters return. */
  datatype GoType =
    | BoolType | StringType | IntType | Float32Type | Float64Type
    | Complex64Type | Complex128Type | Uint8Type | Uint16Type | Uint32Type | Uint64Type

  /** The name Go gives each of those types. */
  function GoName(t: GoType): string {
    match t
    case BoolType => "bool"
    case StringType => "string"
    case IntType => "int"
    case Float32Type => "float32"
    case Float64Type => "float64"
    case Complex64Type => "complex64"
    case Complex128Type => "complex128"
    case Uint8Type => "uint8"
    case Uint16Type => "uint16"
    case Uint32Type => "uint32"
    case Uint64Type => "uint64"
  }

  /** The whitelist with the eighth name spelled as the Go type is spelled. */
  const INTENDED_TYPES: seq<string> :=
    ["bool", "string", "int", "float32", "float64", "complex64", "complex128",
     "uint8", "uint16", "uint32", "uint64"]

  /** The type check as evidently intended: it accepts exactly the names of the getters' types. */
  function CheckValidTypeIntended(valueType: string): (err: Option<Error>)
    ensures err == None || err == Some(IsNotValidType)
    ensures err == None <==> exists t :: GoName(t) == valueType
  {
    IntendedTypesAreGoNames(valueType);
    if FirstIndex(INTENDED_TYPES, valueType) == -1 then Some(IsNotValidType) else None
  }

  lemma IntendedTypesAreGoNames(name: string)
    ensures name in INTENDED_TYPES <==> exists t :: GoName(t) == name
  {
    if name in INTENDED_TYPES {
      var i :| 0 <= i < |INTENDED_TYPES| && INTENDED_TYPES[i] == name;
      var all := [BoolType, StringType, IntType, Float32Type, Float64Type, Complex64Type,
                  Complex128Type, Uint8Type, Uint16Type, Uint32Type, Uint64Type];
      assert GoName(all[i]) == name;
    }
    if t :| GoName(t) == name {
      match t
      case BoolType => assert INTENDED_TYPES[0] == name;
      case StringType => assert INTENDED_TYPES[1] == name;
      case IntType => assert INTENDED_TYPES[2] == name;
      case Float32Type => assert INTENDED_TYPES[3] == name;
      case Float64Type => assert INTENDED_TYPES[4] == name;
      case Complex64Type => assert INTENDED_TYPES[5] == name;
      case Complex128Type => assert INTENDED_TYPES[6] == name;
      case Uint8Type => assert INTENDED_TYPES[7] == name;
      case Uint16Type => assert INTENDED_TYPES[8] == name;
      case Uint32Type => assert INTENDED_TYPES[9] == name;
      case Uint64Type => assert INTENDED_TYPES[10] == name;
    }
  }

  // ---------------------------------------------------------------------
  // Parsers and Go's numeric conversions
  // ---------------------------------------------------------------------

  /** A successful parse is returned with a `nil` error; a failed one is the fatal outcome. */
  function Parsed<T>(parse: string -> Option<T>, text: string): (r: Reply<T>)
    ensures r.Returned? <==> parse(text).Some?
    ensures r.Returned? ==> r.err == None && parse(text) == Some(r.value)
    ensures r.ParseFailure? ==> r.text == text
  {
    match parse(text)
    case Some(x) => Returned(x, None)
    case None => ParseFailure(text)
  }

  /** `strconv.ParseFloat(s, bits)`, left opaque. */
  function FloatParser(parseFloat: (string, int) -> Option<Float>, bits: int): string -> Option<Float> {
    s => parseFloat(s, bits)
  }

  /** `strconv.ParseComplex(s, bits)`, left opaque. */
  function ComplexParser(parseComplex: (string, int) -> Option<Complex>, bits: int): string -> Option<Complex> {
    s => parseComplex(s, bits)
  }

  /** Go's conversions to the narrower unsigned types keep the low bits. */
  function ToUint8(x: Uint64): (r: Uint8)
    ensures (x - r) % 0x100 == 0
    ensures x < 0x100 ==> r == x
  {
    x % 0x100
  }

  function ToUint16(x: Uint64): (r: Uint16)
    ensures (x - r) % 0x1_0000 == 0
    ensures x < 0x1_0000 ==> r == x
  {
    x % 0x1_0000
  }

  function ToUint32(x: Uint64): (r: Uint32)
    ensures (x - r) % 0x1_0000_0000 == 0
    ensures x < 0x1_0000_0000 ==> r == x
  {
    x % 0x1_0000_0000
  }

  /** `strconv.ParseUint(s, base, 8)` followed by `uint8(value)`. */
  function Uint8Parser(parseUint: (string, int, int) -> Option<Uint64>, base: int): string -> Option<Uint8> {
    s => match parseUint(s, base, 8) case Some(x) => Some(ToUint8(x)) case None => None
  }

  /** `strconv.ParseUint(s, base, 16)` followed by `uint16(value)`. */
  function Uint16Parser(parseUint: (string, int, int) -> Option<Uint64>, base: int): string -> Option<Uint16> {
    s => match parseUint(s, base, 16) case Some(x) => Some(ToUint16(x)) case None => None
  }

  /** `strconv.ParseUint(s, base, 32)` followed by `uint32(value)`. */
  function Uint32Parser(parseUint: (string, int, int) -> Option<Uint64>, base: int): string -> Option<Uint32> {
    s => match parseUint(s, base, 32) case Some(x) => Some(ToUint32(x)) case None => None
  }

  /** `strconv.ParseUint(s, base, 64)`. */
  function Uint64Parser(parseUint: (string, int, int) -> Option<Uint64>, base: int): string -> Option<Uint64> {
    s => parseUint(s, base, 64)
  }

  // ---------------------------------------------------------------------
  // The store as a value
  // ---------------------------------------------------------------------

  datatype State = State(key: seq<string>, value: seq<string>, readonly: seq<bool>) {

    /** The three slices always have the same length. */
    predicate Valid() {
      |key| == |value| == |readonly|
    }

    function Size(): nat {
      |key|
    }

    /** The entry at position `j`. */
    function Entry(j: int): (string, string, bool)
      requires Valid() && 0 <= j < Size()
    {
      (key[j], value[j], readonly[j])
    }

    /** `t` differs from this store in the entry at `i` alone, which is now `e`. */
    predicate OnlyChanged(t: State, i: int, e: (string, string, bool))
      requires Valid() && 0 <= i < Size()
    {
      && t.Valid() && t.Size() == Size()
      && t.Entry(i) == e
      && forall j :: 0 <= j < Size() && j != i ==> t.Entry(j) == Entry(j)
    }

    /** Appends an entry; there is no check that the key is new. */
    function Add(k: string, v: string, ro: bool): (t: State)
      requires Valid()
      ensures t.Valid() && t.Size() == Size() + 1
      ensures forall j :: 0 <= j < Size() ==> t.Entry(j) == Entry(j)
      ensures t.Entry(Size()) == (k, v, ro)
    {
      State(key + [k], value + [v], readonly + [ro])
    }

    /** The value of the first entry whose key is `k`. */
    function GetAsString(k: string): (r: (string, Option<Error>))
      requires Valid()
      ensures k !in key ==> r == ("", Some(IsNotExistKey))
      ensures k in key ==> r == (value[FirstIndex(key, k)], None)
    {
      var i := FirstIndex(key, k);
      if i == -1 then ("", Some(IsNotExistKey)) else (value[i], None)
    }

    /** A typed getter: look `k` up, then parse the stored text; `sentinel` is returned for a missing key. */
    function Get<T>(k: string, parse: string -> Option<T>, sentinel: T): (r: Reply<T>)
      requires Valid()
      ensures k !in key ==> r == Returned(sentinel, Some(IsNotExistKey))
      ensures k in key ==> r == Parsed(parse, value[FirstIndex(key, k)])
    {
      var i := FirstIndex(key, k);
      if i == -1 then Returned(sentinel, Some(IsNotExistKey)) else Parsed(parse, value[i])
    }

    /** Renames the first entry with key `k`, unless it is readonly. */
    function UpdateKey(k: string, newKey: string): (o: Outcome)
      requires Valid()
      ensures k !in key ==> o == Outcome(this, Some(IsNotExistKey))
      ensures k in key && readonly[FirstIndex(key, k)] ==> o == Outcome(this, Some(ItIsReadonly))
      ensures k in key && !readonly[FirstIndex(key, k)] ==>
        var i := FirstIndex(key, k);
        o.err == None && OnlyChanged(o.after, i, (newKey, value[i], false))
    {
      var i := FirstIndex(key, k);
      if i == -1 then Outcome(this, Some(IsNotExistKey))
      else if !readonly[i] then Outcome(this.(key := key[i := newKey]), None)
      else Outcome(this, Some(ItIsReadonly))
    }

    /** Overwrites the value of the first entry with key `k`, unless it is readonly. */
    function UpdateValue(k: string, newValue: string): (o: Outcome)
      requires Valid()
      ensures k !in key ==> o == Outcome(this, Some(IsNotExistKey))
      ensures k in key && readonly[FirstIndex(key, k)] ==> o == Outcome(this, Some(ItIsReadonly))
      ensures k in key && !readonly[FirstIndex(key, k)] ==>
        var i := FirstIndex(key, k);
        o.err == None && OnlyChanged(o.after, i, (k, newValue, false))
    {
      var i := FirstIndex(key, k);
      if i == -1 then Outcome(this, Some(IsNotExistKey))
      else if !readonly[i] then Outcome(this.(value := value[i := newValue]), None)
      else Outcome(this, Some(ItIsReadonly))
    }

    /** Sets the readonly flag of the first entry with key `k`, whatever the flag was. */
    function UpdateReadonly(k: string, newReadonly: bool): (o: Outcome)
      requires Valid()
      ensures k !in key ==> o == Outcome(this, Some(IsNotExistKey))
      ensures k in key ==>
        var i := FirstIndex(key, k);
        o.err == None && OnlyChanged(o.after, i, (k, value[i], newReadonly))
    {
      var i := FirstIndex(key, k);
      if i == -1 then Outcome(this, Some(IsNotExistKey))
      else Outcome(this.(readonly := readonly[i := newReadonly]), None)
    }

    /** Replaces the whole first entry with key `k`, unless it is readonly. */
    function UpdateAll(k: string, newKey: string, newValue: string, newReadonly: bool): (o: Outcome)
      requires Valid()
      ensures k !in key ==> o == Outcome(this, Some(IsNotExistKey))
      ensures k in key && readonly[FirstIndex(key, k)] ==> o == Outcome(this, Some(ItIsReadonly))
      ensures k in key && !readonly[FirstIndex(key, k)] ==>
        o.err == None && OnlyChanged(o.after, FirstIndex(key, k), (newKey, newValue, newReadonly))
    {
      var i := FirstIndex(key, k);
      if i == -1 then Outcome(this, Some(IsNotExistKey))
      else if !readonly[i] then
        Outcome(State(key[i := newKey], value[i := newValue], readonly[i := newReadonly]), None)
      else Outcome(this, Some(ItIsReadonly))
    }

    /** Removes the first entry with key `k`, readonly or not; later entries move down by one. */
    function Delete(k: string): (o: Outcome)
      requires Valid()
      ensures k !in key ==> o == Outcome(this, Some(IsNotExistKey))
      ensures k in key ==>
        var i := FirstIndex(key, k);
        && o.err == None
        && o.after.Valid() && o.after.Size() == Size() - 1
        && (forall j {:trigger o.after.Entry(j)} :: 0 <= j < i ==> o.after.Entry(j) == Entry(j))
        && (forall j {:trigger o.after.Entry(j)} :: i <= j < o.after.Size() ==> o.after.Entry(j) == Entry(j + 1))
    {
      var i := FirstIndex(key, k);
      if i == -1 then Outcome(this, Some(IsNotExistKey))
      else Outcome(State(DeleteElement(key, i), DeleteElement(value, i), DeleteElement(readonly, i)), None)
    }
  }

  // ---------------------------------------------------------------------
  // The store as an object
  // ---------------------------------------------------------------------

  class Hamba {
    var key: seq<string>
    var value: seq<string>
    var readonly: seq<bool>

    /** The three slices as one value. */
    function Snapshot(): State
      reads this
    {
      State(key, value, readonly)
    }

    predicate Valid()
      reads this
    {
      Snapshot().Valid()
    }

    /** `New`: a store with three empty slices. */
    constructor New()
      ensures Valid() && Snapshot() == State([], [], [])
    {
      key, value, readonly := [], [], [];
    }

    method Add(k: string, v: string, ro: bool)
      requires Valid()
      modifies this
      ensures Valid() && Snapshot() == old(Snapshot()).Add(k, v, ro)
    {
      key := key + [k];
      value := value + [v];
      readonly := readonly + [ro];
    }

    method GetAsString(k: string) returns (v: string, err: Option<Error>)
      requires Valid()
      ensures (v, err) == Snapshot().GetAsString(k)
    {
      var i := Find(key, k);
      if i == -1 {
        return "", Some(IsNotExistKey);
      }
      return value[i], None;
    }

    method GetAsBool(k: string, parseBool: string -> Option<bool>) returns (r: Reply<bool>)
      requires Valid()
      ensures r == Snapshot().Get(k, parseBool, false)
    {
      var i := Find(key, k);
      if i == -1 {
        return Returned(false, Some(IsNotExistKey));
      }
      r := Parsed(parseBool, value[i]);
    }

    method GetAsInt(k: string, atoi: string -> Option<Int64>) returns (r: Reply<Int64>)
      requires Valid()
      ensures r == Snapshot().Get(k, atoi, -1)
    {
      var i := Find(key, k);
      if i == -1 {
        return Returned(-1, Some(IsNotExistKey));
      }
      r := Parsed(atoi, value[i]);
    }

    method GetAsFloat32(k: string, parseFloat: (string, int) -> Option<Float>) returns (r: Reply<Float>)
      requires Valid()
      ensures r == Snapshot().Get(k, FloatParser(parseFloat, 32), Finite(-1.0))
    {
      var i := Find(key, k);
      if i == -1 {
        return Returned(Finite(-1.0), Some(IsNotExistKey));
      }
      r := Parsed(FloatParser(parseFloat, 32), value[i]);
    }

    method GetAsFloat64(k: string, parseFloat: (string, int) -> Option<Float>) returns (r: Reply<Float>)
      requires Valid()
      ensures r == Snapshot().Get(k, FloatParser(parseFloat, 64), Finite(-1.0))
    {
      var i := Find(key, k);
      if i == -1 {
        return Returned(Finite(-1.0), Some(IsNotExistKey));
      }
      r := Parsed(FloatParser(parseFloat, 64), value[i]);
    }

    method GetAsComplex64(k: string, parseComplex: (string, int) -> Option<Complex>) returns (r: Reply<Complex>)
      requires Valid()
      ensures r == Snapshot().Get(k, ComplexParser(parseComplex, 64), Complex(Finite(-1.0), Finite(0.0)))
    {
      var i := Find(key, k);
      if i == -1 {
        return Returned(Complex(Finite(-1.0), Finite(0.0)), Some(IsNotExistKey));
      }
      r := Parsed(ComplexParser(parseComplex, 64), value[i]);
    }

    method GetAsComplex128(k: string, parseComplex: (string, int) -> Option<Complex>) returns (r: Reply<Complex>)
      requires Valid()
      ensures r == Snapshot().Get(k, ComplexParser(parseComplex, 128), Complex(Finite(-1.0), Finite(0.0)))
    {
      var i := Find(key, k);
      if i == -1 {
        return Returned(Complex(Finite(-1.0), Finite(0.0)), Some(IsNotExistKey));
      }
      r := Parsed(ComplexParser(parseComplex, 128), value[i]);
    }

    method GetAsUint8(k: string, base: int, parseUint: (string, int, int) -> Option<Uint64>) returns (r: Reply<Uint8>)
      requires Valid()
      ensures r == Snapshot().Get(k, Uint8Parser(parseUint, base), 0)
    {
      var i := Find(key, k);
      if i == -1 {
        return Returned(0, Some(IsNotExistKey));
      }
      r := Parsed(Uint8Parser(parseUint, base), value[i]);
    }

    method GetAsUint16(k: string, base: int, parseUint: (string, int, int) -> Option<Uint64>) returns (r: Reply<Uint16>)
      requires Valid()
      ensures r == Snapshot().Get(k, Uint16Parser(parseUint, base), 0)
    {
      var i := Find(key, k);
      if i == -1 {
        return Returned(0, Some(IsNotExistKey));
      }
      r := Parsed(Uint16Parser(parseUint, base), value[i]);
    }

    method GetAsUint32(k: string, base: int, parseUint: (string, int, int) -> Option<Uint64>) returns (r: Reply<Uint32>)
      requires Valid()
      ensures r == Snapshot().Get(k, Uint32Parser(parseUint, base), 0)
    {
      var i := Find(key, k);
      if i == -1 {
        return Returned(0, Some(IsNotExistKey));
      }
      r := Parsed(Uint32Parser(parseUint, base), value[i]);
    }

    method GetAsUint64(k: string, base: int, parseUint: (string, int, int) -> Option<Uint64>) returns (r: Reply<Uint64>)
      requires Valid()
      ensures r == Snapshot().Get(k, Uint64Parser(parseUint, base), 0)
    {
      var i := Find(key, k);
      if i == -1 {
        return Returned(0, Some(IsNotExistKey));
      }
      r := Parsed(Uint64Parser(parseUint, base), value[i]);
    }

    method UpdateKey(k: string, newKey: string) returns (err: Option<Error>)
      requires Valid()
      modifies this
      ensures Valid() && Outcome(Snapshot(), err) == old(Snapshot()).UpdateKey(k, newKey)
    {
      var i := Find(key, k);
      if i == -1 {
        return Some(IsNotExistKey);
      }
      if !readonly[i] {
        key := key[i := newKey];
        return None;
      }
      return Some(ItIsReadonly);
    }

    method UpdateValue(k: string, newValue: string) returns (err: Option<Error>)
      requires Valid()
      modifies this
      ensures Valid() && Outcome(Snapshot(), err) == old(Snapshot()).UpdateValue(k, newValue)
    {
      var i := Find(key, k);
      if i == -1 {
        return Some(IsNotExistKey);
      }
      if !readonly[i] {
        value := value[i := newValue];
        return None;
      }
      return Some(ItIsReadonly);
    }

    method UpdateReadonly(k: string, newReadonly: bool) returns (err: Option<Error>)
      requires Valid()
      modifies this
      ensures Valid() && Outcome(Snapshot(), err) == old(Snapshot()).UpdateReadonly(k, newReadonly)
    {
      var i := Find(key, k);
      if i == -1 {
        return Some(IsNotExistKey);
      }
      readonly := readonly[i := newReadonly];
      return None;
    }

    method UpdateAll(k: string, newKey: string, newValue: string, newReadonly: bool) returns (err: Option<Error>)
      requires Valid()
      modifies this
      ensures Valid() && Outcome(Snapshot(), err) == old(Snapshot()).UpdateAll(k, newKey, newValue, newReadonly)
    {
      var i := Find(key, k);
      if i == -1 {
        return Some(IsNotExistKey);
      }
      if !readonly[i] {
        key := key[i := newKey];
        value := value[i := newValue];
        readonly := readonly[i := newReadonly];
        return None;
      }
      return Some(ItIsReadonly);
    }

    method Delete(k: string) returns (err: Option<Error>)
      requires Valid()
      modifies this
      ensures Valid() && Outcome(Snapshot(), err) == old(Snapshot()).Delete(k)
    {
      var i := Find(key, k);
      if i == -1 {
        return Some(IsNotExistKey);
      }
      key := DeleteElement(key, i);
      value := DeleteElement(value, i);
      readonly := DeleteElement(readonly, i);
      return None;
    }

    /** The same as `Delete`. */
    method Remove(k: string) returns (err: Option<Error>)
      requires Valid()
      modifies this
      ensures Valid() && Outcome(Snapshot(), err) == old(Snapshot()).Delete(k)
    {
      err := Delete(k);
    }
  }
}
