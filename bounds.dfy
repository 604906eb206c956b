/** Query-parameter marshalling and the backend-agnostic row abstraction of
    `canyon_crud/src/bounds.rs`.

    Every `QueryParameters` implementation is one `Param`: a scalar kind and
    the Rust form it was passed in (`T`, `&T`, `Option<T>`, `Option<&T>`).
    `AsSqlServerParam` is `as_sqlserver_param`, giving SQL Server's tagged
    `ColumnData`. A row is a PostgreSQL row, a SQL Server row, or some other
    `Row` implementor, which every operation rejects. */
module Bounds {
  import opened Wrappers

  // ---------------------------------------------------------------------
  // Scalars
  // ---------------------------------------------------------------------

  type Int16 = x: int | -0x8000 <= x < 0x8000
  type Int32 = x: int | -0x8000_0000 <= x < 0x8000_0000
  type Int64 = x: int | -0x8000_0000_0000_0000 <= x < 0x8000_0000_0000_0000
  /** An `f32` or `f64`, kept as its IEEE-754 bit pattern: it is only ever copied. */
  type Float32 = bv32
  type Float64 = bv64

  /** The five chrono types that have an implementation. */
  datatype TemporalKind = NaiveDate | NaiveTime | NaiveDateTime | DateTimeFixedOffset | DateTimeUtc

  /** A chrono value, held as its calendar and clock fields; only copied. */
  datatype TemporalValue = TemporalValue(fields: seq<int>)

  /** The four forms a numeric or `String` argument takes. */
  datatype Shape<T> =
    | Value(value: T)              // T
    | Ref(target: T)               // &T
    | Opt(opt: Option<T>)          // Option<T>
    | OptRef(optRef: Option<T>)    // Option<&T>

  /** The two forms of `&str` and the chrono types: the type itself or its `Option`. */
  datatype Nullable<T> = Plain(plain: T) | Maybe(maybe: Option<T>)

  /** A value implementing `QueryParameters`. */
  datatype Param =
    | I16Param(i16: Shape<Int16>)
    | I32Param(i32: Shape<Int32>)
    | I64Param(i64: Shape<Int64>)
    | F32Param(f32: Shape<Float32>)
    | F64Param(f64: Shape<Float64>)
    | StringParam(string: Shape<string>)                    // String, &String, Option<String>, Option<&String>
    | StrParam(str: Nullable<string>)                      // &str, Option<&str>
    | TemporalParam(kind: TemporalKind, temporal: Nullable<TemporalValue>)

  /** Text inside `ColumnData::String`: `Cow::Owned` or `Cow::Borrowed`. */
  datatype Cow = Owned(text: string) | Borrowed(text: string)

  /** The SQL Server parameter values the marshalling produces. `Temporal`
      stands for whatever tiberius's own `IntoSql` yields for a chrono value;
      which variant that is, and what it carries, is tiberius's encoding and
      not part of this model, so no contract relies on its fields beyond
      NULL-ness. */
  datatype ColumnData =
    | I16(i16: Option<Int16>)
    | I32(i32: Option<Int32>)
    | I64(i64: Option<Int64>)
    | F32(f32: Option<Float32>)
    | F64(f64: Option<Float64>)
    | String(str: Option<Cow>)
    | Temporal(kind: TemporalKind, temporal: Option<TemporalValue>)

  // ---------------------------------------------------------------------
  // Independent views of a parameter and of column data
  // ---------------------------------------------------------------------

  /** Scalar kinds; `&str` and `String` are both `Text`. */
  datatype Kind = KI16 | KI32 | KI64 | KF32 | KF64 | KText | KTemporal(temporalKind: TemporalKind)

  /** The payload of a parameter or of column data, whatever its kind. */
  datatype Scalar =
    | SI16(i16: Int16) | SI32(i32: Int32) | SI64(i64: Int64)
    | SF32(f32: Float32) | SF64(f64: Float64)
    | SText(text: string) | STemporal(temporal: TemporalValue)

  /** The Rust form an argument was passed in. */
  datatype Form = ByValue | ByRef | ByOption | ByOptionRef

  /** The Rust type of a parameter: its kind, its form, and for text whether
      it is a `str` slice rather than a `String`. */
  datatype ParamType = ParamType(kind: Kind, form: Form, slice: bool)

  function ShapeForm<T>(s: Shape<T>): Form {
    match s
    case Value(_) => ByValue
    case Ref(_) => ByRef
    case Opt(_) => ByOption
    case OptRef(_) => ByOptionRef
  }

  /** `&str` is a reference; `Option<&str>` an option of one. Chrono values
      are passed by value or as `Option`. */
  function NullableForm<T>(n: Nullable<T>, borrowed: bool): Form {
    match n
    case Plain(_) => if borrowed then ByRef else ByValue
    case Maybe(_) => if borrowed then ByOptionRef else ByOption
  }

  function TypeOf(p: Param): ParamType {
    match p
    case I16Param(s) => ParamType(KI16, ShapeForm(s), false)
    case I32Param(s) => ParamType(KI32, ShapeForm(s), false)
    case I64Param(s) => ParamType(KI64, ShapeForm(s), false)
    case F32Param(s) => ParamType(KF32, ShapeForm(s), false)
    case F64Param(s) => ParamType(KF64, ShapeForm(s), false)
    case StringParam(s) => ParamType(KText, ShapeForm(s), false)
    case StrParam(n) => ParamType(KText, NullableForm(n, true), true)
    case TemporalParam(k, n) => ParamType(KTemporal(k), NullableForm(n, false), false)
  }

  function ShapeValue<T>(s: Shape<T>): Option<T> {
    match s
    case Value(v) => Some(v)
    case Ref(v) => Some(v)
    case Opt(o) => o
    case OptRef(o) => o
  }

  function NullableValue<T>(n: Nullable<T>): Option<T> {
    match n
    case Plain(v) => Some(v)
    case Maybe(o) => o
  }

  function MapOption<A, B>(o: Option<A>, f: A -> B): Option<B> {
    match o
    case None => None
    case Some(a) => Some(f(a))
  }

  /** The value a parameter carries, `None` for an absent optional. */
  function Payload(p: Param): Option<Scalar> {
    match p
    case I16Param(s) => MapOption(ShapeValue(s), x => SI16(x))
    case I32Param(s) => MapOption(ShapeValue(s), x => SI32(x))
    case I64Param(s) => MapOption(ShapeValue(s), x => SI64(x))
    case F32Param(s) => MapOption(ShapeValue(s), x => SF32(x))
    case F64Param(s) => MapOption(ShapeValue(s), x => SF64(x))
    case StringParam(s) => MapOption(ShapeValue(s), x => SText(x))
    case StrParam(n) => MapOption(NullableValue(n), x => SText(x))
    case TemporalParam(_, n) => MapOption(NullableValue(n), x => STemporal(x))
  }

  /** The kind of scalar a `ColumnData` variant holds. */
  function DataKind(c: ColumnData): Kind {
    match c
    case I16(_) => KI16
    case I32(_) => KI32
    case I64(_) => KI64
    case F32(_) => KF32
    case F64(_) => KF64
    case String(_) => KText
    case Temporal(k, _) => KTemporal(k)
  }

  /** The value `ColumnData` carries, `None` for SQL NULL. */
  function DataPayload(c: ColumnData): Option<Scalar> {
    match c
    case I16(o) => MapOption(o, x => SI16(x))
    case I32(o) => MapOption(o, x => SI32(x))
    case I64(o) => MapOption(o, x => SI64(x))
    case F32(o) => MapOption(o, x => SF32(x))
    case F64(o) => MapOption(o, x => SF64(x))
    case String(o) => MapOption(o, (w: Cow) => SText(w.text))
    case Temporal(_, o) => MapOption(o, x => STemporal(x))
  }

  // ---------------------------------------------------------------------
  // as_sqlserver_param
  // ---------------------------------------------------------------------

  /** `Option<&T>` of a numeric kind is `unwrap`ped (or `expect`ed): an
      absent value is a panic, so it must be present. */
  predicate Unwrappable<T>(s: Shape<T>) {
    s.OptRef? ==> s.optRef.Some?
  }

  predicate Marshallable(p: Param) {
    match p
    case I16Param(s) => Unwrappable(s)
    case I32Param(s) => Unwrappable(s)
    case I64Param(s) => Unwrappable(s)
    case F32Param(s) => Unwrappable(s)
    case F64Param(s) => Unwrappable(s)
    case StringParam(_) => true
    case StrParam(_) => true
    case TemporalParam(_, _) => true
  }

  /** The numeric impls: `T` and `&T` give `Some` of the value, `Option<T>`
      is passed through unchanged, `Option<&T>` gives `Some` of the pointee. */
  function NumericData<T>(s: Shape<T>): Option<T>
    requires Unwrappable(s)
  {
    match s
    case Value(v) => Some(v)
    case Ref(v) => Some(v)
    case Opt(o) => o
    case OptRef(o) => Some(o.value)
  }

  /** The `String` impls: a `String` is copied into `Cow::Owned`; a
      reference is lent as `Cow::Borrowed`; `None` is `String(None)`. */
  function StringData(s: Shape<string>): Option<Cow> {
    match s
    case Value(t) => Some(Owned(t))
    case Ref(t) => Some(Borrowed(t))
    case Opt(o) => if o.Some? then Some(Owned(o.value)) else None
    case OptRef(o) => if o.Some? then Some(Borrowed(o.value)) else None
  }

  /** The `&str` impls: always borrowed. */
  function StrData(n: Nullable<string>): Option<Cow> {
    match n
    case Plain(t) => Some(Borrowed(t))
    case Maybe(o) => if o.Some? then Some(Borrowed(o.value)) else None
  }

  /** `QueryParameters::as_sqlserver_param`: for the integer, float and
      text kinds, the variant of the parameter's kind, carrying its value, or
      SQL NULL when it is an absent optional. A chrono value is handed to
      tiberius's `IntoSql`, of which only NULL-ness is promised. */
  function AsSqlServerParam(p: Param): (c: ColumnData)
    requires Marshallable(p)
    ensures !p.TemporalParam? ==> DataKind(c) == TypeOf(p).kind && DataPayload(c) == Payload(p)
    ensures p.TemporalParam? ==> c.Temporal? && (c.temporal.None? <==> NullableValue(p.temporal).None?)
  {
    match p
    case I16Param(s) => I16(NumericData(s))
    case I32Param(s) => I32(NumericData(s))
    case I64Param(s) => I64(NumericData(s))
    case F32Param(s) => F32(NumericData(s))
    case F64Param(s) => F64(NumericData(s))
    case StringParam(s) => String(StringData(s))
    case StrParam(n) => String(StrData(n))
    case TemporalParam(k, n) => Temporal(k, NullableValue(n))
  }

  /** `IntoSql for &dyn QueryParameters`: what a parameter slice hands to
      tiberius is the parameter's own SQL Server value, which for every kind
      but the chrono ones decodes back to the parameter. */
  function IntoSql(p: Param): (c: ColumnData)
    requires Marshallable(p)
    ensures c == AsSqlServerParam(p)
    ensures !p.TemporalParam? ==> Decode(c, TypeOf(p)) == Some(p)
  {
    if !p.TemporalParam? then MarshalRoundTrip(p); AsSqlServerParam(p)
    else AsSqlServerParam(p)
  }

  // ---------------------------------------------------------------------
  // Reading column data back as a parameter of a given Rust type
  // ---------------------------------------------------------------------

  /** Rebuilds a numeric shape of form `f` from the `Option` the variant holds. */
  function NumericShape<T>(o: Option<T>, f: Form): Option<Shape<T>> {
    match f
    case ByValue => if o.Some? then Some(Value(o.value)) else None
    case ByRef => if o.Some? then Some(Ref(o.value)) else None
    case ByOption => Some(Opt(o))
    case ByOptionRef => if o.Some? then Some(OptRef(o)) else None
  }

  /** Rebuilds a `String` shape: owned text for `String`/`Option<String>`,
      borrowed text for the reference forms. */
  function StringShape(o: Option<Cow>, f: Form): Option<Shape<string>> {
    match f
    case ByValue => if o.Some? && o.value.Owned? then Some(Value(o.value.text)) else None
    case ByRef => if o.Some? && o.value.Borrowed? then Some(Ref(o.value.text)) else None
    case ByOption =>
      if o.None? then Some(Opt(None))
      else if o.value.Owned? then Some(Opt(Some(o.value.text))) else None
    case ByOptionRef =>
      if o.None? then Some(OptRef(None))
      else if o.value.Borrowed? then Some(OptRef(Some(o.value.text))) else None
  }

  function StrShape(o: Option<Cow>, f: Form): Option<Nullable<string>> {
    match f
    case ByRef => if o.Some? && o.value.Borrowed? then Some(Plain(o.value.text)) else None
    case ByOptionRef =>
      if o.None? then Some(Maybe(None))
      else if o.value.Borrowed? then Some(Maybe(Some(o.value.text))) else None
    case _ => None
  }

  function TemporalShape(o: Option<TemporalValue>, f: Form): Option<Nullable<TemporalValue>> {
    match f
    case ByValue => if o.Some? then Some(Plain(o.value)) else None
    case ByOption => Some(Maybe(o))
    case _ => None
  }

  function MapShape<A>(o: Option<A>, f: A -> Param): Option<Param> {
    match o
    case None => None
    case Some(a) => Some(f(a))
  }

  /** The parameter of Rust type `t` whose SQL Server value is `c`, if any. */
  function Decode(c: ColumnData, t: ParamType): Option<Param> {
    match c
    case I16(o) => if t.kind == KI16 && !t.slice then MapShape(NumericShape(o, t.form), s => I16Param(s)) else None
    case I32(o) => if t.kind == KI32 && !t.slice then MapShape(NumericShape(o, t.form), s => I32Param(s)) else None
    case I64(o) => if t.kind == KI64 && !t.slice then MapShape(NumericShape(o, t.form), s => I64Param(s)) else None
    case F32(o) => if t.kind == KF32 && !t.slice then MapShape(NumericShape(o, t.form), s => F32Param(s)) else None
    case F64(o) => if t.kind == KF64 && !t.slice then MapShape(NumericShape(o, t.form), s => F64Param(s)) else None
    case String(o) =>
      if t.kind != KText then None
      else if t.slice then MapShape(StrShape(o, t.form), n => StrParam(n))
      else MapShape(StringShape(o, t.form), s => StringParam(s))
    case Temporal(k, o) =>
      if t.kind == KTemporal(k) && !t.slice then MapShape(TemporalShape(o, t.form), n => TemporalParam(k, n)) else None
  }

  /** Marshalling loses nothing: reading the SQL Server value back at the
      parameter's own type gives the parameter, NULL included. */
  lemma MarshalRoundTrip(p: Param)
    requires Marshallable(p) && !p.TemporalParam?
    ensures Decode(AsSqlServerParam(p), TypeOf(p)) == Some(p)
  {
  }

  /** Decoding is exact: whatever non-chrono value decodes at type `t` is a
      parameter of type `t` that marshals to exactly that value. */
  lemma DecodeSound(c: ColumnData, t: ParamType, p: Param)
    requires Decode(c, t) == Some(p) && !c.Temporal?
    ensures Marshallable(p) && TypeOf(p) == t && AsSqlServerParam(p) == c
  {
  }

  /** Two parameters of one Rust type marshal alike only when they are equal. */
  lemma MarshalInjective(p: Param, q: Param)
    requires Marshallable(p) && Marshallable(q) && TypeOf(p) == TypeOf(q)
    requires !p.TemporalParam?
    requires AsSqlServerParam(p) == AsSqlServerParam(q)
    ensures p == q
  {
  }

  /** Owned text stays owned and borrowed text stays borrowed. */
  lemma TextOwnership(p: Param)
    requires p.StringParam? || p.StrParam?
    ensures var c := AsSqlServerParam(p);
      c.String? &&
      (c.str.Some? ==>
        (c.str.value.Borrowed? <==> TypeOf(p).form in {ByRef, ByOptionRef}))
  {
  }

  /** A value and a reference to it marshal to the same numeric variant,
      for all five numeric kinds; a `String` and a `&String` or `&str` of the
      same text carry equal text, owned in the first case and borrowed in
      the others. */
  lemma ValueAndReferenceAgree(a: Int16, b: Int32, x: Int64, e: Float32, f: Float64, t: string)
    ensures AsSqlServerParam(I16Param(Value(a))) == AsSqlServerParam(I16Param(Ref(a))) == I16(Some(a))
    ensures AsSqlServerParam(I32Param(Value(b))) == AsSqlServerParam(I32Param(Ref(b))) == I32(Some(b))
    ensures AsSqlServerParam(I64Param(Value(x))) == AsSqlServerParam(I64Param(Ref(x))) == I64(Some(x))
    ensures AsSqlServerParam(F32Param(Value(e))) == AsSqlServerParam(F32Param(Ref(e))) == F32(Some(e))
    ensures AsSqlServerParam(F64Param(Value(f))) == AsSqlServerParam(F64Param(Ref(f))) == F64(Some(f))
    ensures AsSqlServerParam(StringParam(Value(t))) == String(Some(Owned(t)))
    ensures AsSqlServerParam(StringParam(Ref(t))) == AsSqlServerParam(StrParam(Plain(t))) == String(Some(Borrowed(t)))
  {
  }

  // ---------------------------------------------------------------------
  // Rows and columns
  // ---------------------------------------------------------------------

  /** A PostgreSQL type as `tokio_postgres` describes it. */
  datatype PgType = PgType(oid: nat, name: string)

  /** The column types tiberius reports for SQL Server (`tiberius::ColumnType`). */
  datatype MsType =
    | Null | Bit | Int1 | Int2 | Int4 | Int8 | Datetime4 | Float4 | Float8
    | Money | Datetime | Money4 | Guid | Intn | Bitn | Decimaln | Numericn
    | Floatn | Datetimen | Daten | Timen | Datetime2 | DatetimeOffsetn
    | BigVarBin | BigVarChar | BigBinary | BigChar | NVarchar | NChar
    | Xml | Udt | Text | Image | NText | SSVariant

  datatype PgColumn = PgColumn(name: string, ty: PgType)
  datatype MsColumn = MsColumn(name: string, ty: MsType)

  /** A backend row: its column descriptions and raw cells (`None` is NULL). */
  datatype PgRow = PgRow(columns: seq<PgColumn>, cells: seq<Option<seq<bv8>>>)
  datatype MsRow = MsRow(columns: seq<MsColumn>, cells: seq<Option<seq<bv8>>>)

  /** `&dyn Row`: a `tokio_postgres::Row`, a `tiberius::Row`, or another
      implementor that no operation accepts. */
  datatype Row = Postgres(pg: PgRow) | Tiberius(ms: MsRow) | Other

  datatype ColumnType = PgColumnType(pgType: PgType) | MsColumnType(msType: MsType)

  datatype Column = Column(name: string, columnType: ColumnType)

  /** `&dyn Type`: a type value whose concrete type is recovered by downcasting. */
  datatype AnyType = AnyPg(pg: PgType) | AnyMs(ms: MsType)

  function DowncastPg(t: AnyType): Option<PgType> {
    if t.AnyPg? then Some(t.pg) else None
  }

  function DowncastMs(t: AnyType): Option<MsType> {
    if t.AnyMs? then Some(t.ms) else None
  }

  /** `Column::type_`: the payload of whichever tag the column carries. */
  function TypeOfColumn(c: Column): (t: AnyType)
    ensures c.columnType.PgColumnType? ==>
      DowncastPg(t) == Some(c.columnType.pgType) && DowncastMs(t) == None
    ensures c.columnType.MsColumnType? ==>
      DowncastMs(t) == Some(c.columnType.msType) && DowncastPg(t) == None
  {
    match c.columnType
    case PgColumnType(v) => AnyPg(v)
    case MsColumnType(v) => AnyMs(v)
  }

  function ColumnCount(row: Row): nat {
    match row
    case Postgres(r) => |r.columns|
    case Tiberius(r) => |r.columns|
    case Other => 0
  }

  /** `RowOperations::columns`: one `Column` per backend column, in backend
      order, with the name copied and the type tagged with its backend. The
      `else` branch `expect`s a tiberius row, so any other row panics. */
  method Columns(row: Row) returns (cols: seq<Column>)
    requires !row.Other?
    ensures |cols| == ColumnCount(row)
    ensures row.Postgres? ==> forall i :: 0 <= i < |cols| ==>
      cols[i] == Column(row.pg.columns[i].name, PgColumnType(row.pg.columns[i].ty))
    ensures row.Tiberius? ==> forall i :: 0 <= i < |cols| ==>
      cols[i] == Column(row.ms.columns[i].name, MsColumnType(row.ms.columns[i].ty))
  {
    cols := [];
    if row.Postgres? {
      var source := row.pg.columns;
      var i := 0;
      while i < |source|
        invariant 0 <= i <= |source|
        invariant |cols| == i
        invariant forall j :: 0 <= j < i ==> cols[j] == Column(source[j].name, PgColumnType(source[j].ty))
      {
        cols := cols + [Column(source[i].name, PgColumnType(source[i].ty))];
        i := i + 1;
      }
    } else {
      var source := row.ms.columns;
      var i := 0;
      while i < |source|
        invariant 0 <= i <= |source|
        invariant |cols| == i
        invariant forall j :: 0 <= j < i ==> cols[j] == Column(source[j].name, MsColumnType(source[j].ty))
      {
        cols := cols + [Column(source[i].name, MsColumnType(source[i].ty))];
        i := i + 1;
      }
    }
  }

  /** Names of a column list, in order. */
  function Names(cols: seq<Column>): (names: seq<string>)
    ensures |names| == |cols|
    ensures forall i :: 0 <= i < |cols| ==> names[i] == cols[i].name
  {
    seq(|cols|, i requires 0 <= i < |cols| => cols[i].name)
  }

  /** The projection order the backend reports. */
  function BackendNames(row: Row): (names: seq<string>)
    ensures |names| == ColumnCount(row)
  {
    match row
    case Postgres(r) => seq(|r.columns|, i requires 0 <= i < |r.columns| => r.columns[i].name)
    case Tiberius(r) => seq(|r.columns|, i requires 0 <= i < |r.columns| => r.columns[i].name)
    case Other => []
  }

  /** Reads the names `columns()` reports: they are the backend's, in order. */
  method ColumnNames(row: Row) returns (names: seq<string>)
    requires !row.Other?
    ensures names == BackendNames(row)
  {
    var cols := Columns(row);
    names := Names(cols);
  }

  /** A backend's typed extraction (`FromSql`) of one column: `Ok(Some(v))`
      for a value, `Ok(None)` for NULL, `Err` for a missing column, a type
      mismatch or malformed data. */
  type PgExtractor<O> = (PgRow, string) -> Result<Option<O>, string>
  type MsExtractor<O> = (MsRow, string) -> Result<Option<O>, string>

  /** What the backend's extractor says about column `name` of `row`. */
  function Extract<O>(row: Row, name: string, pg: PgExtractor<O>, ms: MsExtractor<O>): Result<Option<O>, string>
    requires !row.Other?
  {
    if row.Postgres? then pg(row.pg, name) else ms(row.ms, name)
  }

  /** `get` returns normally only on a known row whose column holds a value:
      postgres' `get` panics on an error or a NULL read as a non-optional,
      tiberius' `get` panics on an error and its `None` is `expect`ed. */
  predicate CanGet<O>(row: Row, name: string, pg: PgExtractor<O>, ms: MsExtractor<O>) {
    !row.Other? && Extract(row, name, pg, ms).Ok? && Extract(row, name, pg, ms).value.Some?
  }

  /** `get_opt` returns normally on a known row whose extraction succeeds. */
  predicate CanGetOpt<O>(row: Row, name: string, pg: PgExtractor<O>, ms: MsExtractor<O>) {
    !row.Other? && Extract(row, name, pg, ms).Ok?
  }

  /** `RowOperations::get`: the value the row's own backend extracts. */
  function Get<O>(row: Row, name: string, pg: PgExtractor<O>, ms: MsExtractor<O>): (v: O)
    requires CanGet(row, name, pg, ms)
    ensures row.Postgres? ==> pg(row.pg, name) == Ok(Some(v))
    ensures row.Tiberius? ==> ms(row.ms, name) == Ok(Some(v))
  {
    match row
    case Postgres(r) => pg(r, name).value.value
    case Tiberius(r) => ms(r, name).value.value
  }

  /** `RowOperations::get_opt`: the value, or `None` for NULL. */
  function GetOpt<O>(row: Row, name: string, pg: PgExtractor<O>, ms: MsExtractor<O>): (v: Option<O>)
    requires CanGetOpt(row, name, pg, ms)
    ensures row.Postgres? ==> pg(row.pg, name) == Ok(v)
    ensures row.Tiberius? ==> ms(row.ms, name) == Ok(v)
  {
    match row
    case Postgres(r) => pg(r, name).value
    case Tiberius(r) => ms(r, name).value
  }

  /** Where `get` succeeds, `get_opt` succeeds too and gives the same value. */
  lemma GetOptAgreesWithGet<O>(row: Row, name: string, pg: PgExtractor<O>, ms: MsExtractor<O>)
    requires CanGet(row, name, pg, ms)
    ensures CanGetOpt(row, name, pg, ms)
    ensures GetOpt(row, name, pg, ms) == Some(Get(row, name, pg, ms))
  {
  }

  /** On a NULL column `get_opt` returns `None` and `get` cannot return. */
  lemma NullIsAbsence<O>(row: Row, name: string, pg: PgExtractor<O>, ms: MsExtractor<O>)
    requires !row.Other? && Extract(row, name, pg, ms) == Ok(None)
    ensures CanGetOpt(row, name, pg, ms) && GetOpt(row, name, pg, ms) == None
    ensures !CanGet(row, name, pg, ms)
  {
  }

  /** An extraction error, or a row of a third kind, is fatal to both. */
  lemma ExtractionFailureIsFatal<O>(row: Row, name: string, pg: PgExtractor<O>, ms: MsExtractor<O>)
    requires row.Other? || Extract(row, name, pg, ms).Err?
    ensures !CanGet(row, name, pg, ms) && !CanGetOpt(row, name, pg, ms)
  {
  }
}
