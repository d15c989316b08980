/** buildWhere: parsed filter groups compiled to the condition object of a database query. How the query
    engine reads such an object is defined here apart from the compiler, over a schema: a key that names a
    field of the schema leads to that field, other keys are the engine's own operators or are refused, and an
    entry whose value is undefined is no test at all. */
module FilterWhere {
  import opened Options
  import FilterParser
  import Strings

  type Value = FilterParser.Value
  type Where = FilterParser.Where

  datatype Test =
    | Equals(v: Value) | Not(v: Value) | Gt(v: Value) | Gte(v: Value) | Lt(v: Value) | Lte(v: Value)
    | Contains(v: Value) | In(items: seq<string>) | Range(low: string, high: string) | IsNull

  /** The objects the compiler builds have one entry, or none. */
  datatype Json = Entry(key: string, value: Json) | NoEntry | List(items: seq<Json>) | Leaf(test: Test)

  datatype Error = InRequiresArray | BetweenRequiresTwo

  // ---------------------------------------------------------------- compilation

  /** The object of a path; setting the key `__proto__` changes a prototype and adds no entry. */
  function Nested(parts: seq<string>, test: Test): Json {
    if parts == [] then Leaf(test)
    else if parts[0] == "__proto__" then NoEntry
    else Entry(parts[0], Nested(parts[1..], test))
  }

  function TestOf(c: Where): Result<Test, Error> {
    match c.operator
    case EQ => Ok(Equals(c.value))
    case NE => Ok(Not(c.value))
    case GT => Ok(Gt(c.value))
    case GTE => Ok(Gte(c.value))
    case LT => Ok(Lt(c.value))
    case LTE => Ok(Lte(c.value))
    case LIKE => Ok(Contains(c.value))
    case IN => if c.value.Items? then Ok(In(c.value.items)) else Err(InRequiresArray)
    case BETWEEN =>
      if !c.value.Items? || |c.value.items| != 2 then Err(BetweenRequiresTwo)
      else Ok(Range(c.value.items[0], c.value.items[1]))
    case ISNULL => Ok(IsNull)
    case NOTNULL => Ok(Not(FilterParser.Null))
    case INHERITED => Ok(Equals(c.value))
  }

  function Parts(column: string): seq<string> {
    FilterParser.Split(column, '.')
  }

  function MapCondition(c: Where): Result<Json, Error> {
    match TestOf(c)
    case Err(e) => Err(e)
    case Ok(test) => Ok(Nested(Parts(c.column), test))
  }

  function MapAll(group: seq<Where>): Result<seq<Json>, Error> {
    if group == [] then Ok([])
    else
      match MapCondition(group[0])
      case Err(e) => Err(e)
      case Ok(j) =>
        match MapAll(group[1..])
        case Err(e) => Err(e)
        case Ok(rest) => Ok([j] + rest)
  }

  function MapGroup(group: seq<Where>): Result<Json, Error> {
    if |group| == 1 then MapCondition(group[0])
    else
      match MapAll(group)
      case Err(e) => Err(e)
      case Ok(js) => Ok(Entry("OR", List(js)))
  }

  function MapGroups(groups: seq<seq<Where>>): Result<seq<Json>, Error> {
    if groups == [] then Ok([])
    else if groups[0] == [] then MapGroups(groups[1..])
    else
      match MapGroup(groups[0])
      case Err(e) => Err(e)
      case Ok(j) =>
        match MapGroups(groups[1..])
        case Err(e) => Err(e)
        case Ok(rest) => Ok([j] + rest)
  }

  function BuildWhere(groups: seq<seq<Where>>): Result<Json, Error> {
    match MapGroups(groups)
    case Err(e) => Err(e)
    case Ok(js) => Ok(if js == [] then NoEntry else if |js| == 1 then js[0] else Entry("AND", List(js)))
  }

  // ---------------------------------------------------------------- how the engine reads an object

  datatype ColumnType =
    | StringType | BooleanType | NumberType | EnumType(values: set<string>) | DateTimeType | DecimalType

  /** What a path names: the queried model or a related record, a list of related records, or a column. */
  datatype Kind = Record(nullable: bool) | Many | Column(columnType: ColumnType, nullable: bool)

  /** The models, and which texts the engine reads as a date and time and as a decimal number. */
  datatype Schema = Schema(kind: seq<string> -> Option<Kind>, isDateTime: string -> bool, isDecimal: string -> bool)

  /** Names a schema can give to a field below a parent; a list is entered by `some` or `every` only, and its
      entries are never null. */
  predicate MayName(parent: Option<Kind>, key: string, child: Kind) {
    match parent
    case Some(Record(_)) => key !in ["AND", "OR", "NOT", "__proto__"]
    case Some(Many) => key in ["some", "every"] && child == Record(false)
    case _ => false
  }

  ghost predicate IsSchema(schema: Schema) {
    && schema.kind([]) == Some(Record(false))
    && (forall path, key :: schema.kind(path + [key]).Some? ==>
          MayName(schema.kind(path), key, schema.kind(path + [key]).value))
  }

  predicate IsColumn(schema: Schema, path: seq<string>) {
    schema.kind(path).Some? && schema.kind(path).value.Column?
  }

  predicate IsRecord(schema: Schema, path: seq<string>) {
    schema.kind(path).Some? && schema.kind(path).value.Record?
  }

  /** An answer is unknown where a null is compared. A row is selected if the answer is yes. */
  datatype Answer = Yes | No | Unknown

  function Opposite(a: Answer): Answer {
    match a case Yes => No case No => Yes case Unknown => Unknown
  }

  /** A row answers each test on each path, with negations at some depths of the path. With no test it answers
      whether the path exists at all. */
  type RowView = (seq<string>, seq<nat>, Option<Test>) -> Answer

  /** A negation around everything, and one on a column of the row itself, turn the answer round. Negations
      inside related records depend on the data and are left to the row. */
  ghost predicate IsRow(schema: Schema, row: RowView) {
    && row([], [], None) == Yes
    && (forall key :: IsColumn(schema, [key]) ==> row([key], [], None) == Yes)
    && (forall path, test :: row(path, [0], Some(test)) == Opposite(row(path, [], Some(test))))
    && (forall key, test :: IsColumn(schema, [key]) ==>
          row([key], [1], Some(test)) == Opposite(row([key], [], Some(test))))
  }

  /** The test has no value: the engine drops such an entry. */
  predicate Idle(test: Test) {
    match test
    case In(_) => false
    case Range(_, _) => false
    case IsNull => false
    case _ => test.v.Undefined?
  }

  /** Filter values are text. The database takes no NUL in a text; booleans and numbers are not read from text. */
  predicate Readable(schema: Schema, columnType: ColumnType, text: string) {
    match columnType
    case StringType => '\0' !in text
    case BooleanType => false
    case NumberType => false
    case EnumType(values) => text in values
    case DateTimeType => schema.isDateTime(text)
    case DecimalType => schema.isDecimal(text)
  }

  predicate ReadableValue(schema: Schema, columnType: ColumnType, v: Value) {
    v.Text? && Readable(schema, columnType, v.text)
  }

  predicate Ordered(columnType: ColumnType) {
    !columnType.BooleanType? && !columnType.EnumType?
  }

  predicate ColumnTakes(schema: Schema, columnType: ColumnType, nullable: bool, test: Test) {
    match test
    case Equals(v) => if v.Null? then nullable else ReadableValue(schema, columnType, v)
    case Not(v) => if v.Null? then nullable else ReadableValue(schema, columnType, v)
    case Contains(v) => columnType.StringType? && ReadableValue(schema, columnType, v)
    case In(items) => !columnType.BooleanType? && forall i :: 0 <= i < |items| ==> Readable(schema, columnType, items[i])
    case Range(low, high) =>
      Ordered(columnType) && Readable(schema, columnType, low) && Readable(schema, columnType, high)
    case IsNull => nullable
    case _ => Ordered(columnType) && ReadableValue(schema, columnType, test.v)
  }

  /** How the engine came to a value: as that of a field, as what `is`, `isNot` or `equals` compares with, or as
      the conditions on a record, in place of which it takes no null. */
  datatype Form = Named | Compared | Conditions

  datatype Spot = Spot(path: seq<string>, negations: seq<nat>, form: Form)

  const TOP := Spot([], [], Conditions)

  predicate Takes(schema: Schema, at: Spot, test: Test) {
    match schema.kind(at.path)
    case Some(Column(columnType, nullable)) =>
      ColumnTakes(schema, columnType, nullable, test) && (at.form == Compared ==> test.IsNull?)
    case Some(Record(nullable)) => nullable && test.IsNull? && at.form != Conditions
    case _ => false
  }

  function ReadEmpty(schema: Schema, row: RowView, at: Spot): Option<Answer> {
    if at.form == Compared && IsColumn(schema, at.path) then None else Some(row(at.path, at.negations, None))
  }

  function ReadTest(schema: Schema, row: RowView, at: Spot, test: Test): Option<Answer> {
    if Idle(test) then ReadEmpty(schema, row, at)
    else if Takes(schema, at, test) then Some(row(at.path, at.negations, Some(test)))
    else None
  }

  function Entered(schema: Schema, at: Spot, key: string): Spot {
    Spot(at.path + [key], at.negations, if schema.kind(at.path) == Some(Many) then Conditions else Named)
  }

  function Negated(at: Spot): Spot {
    at.(negations := at.negations + [|at.path|])
  }

  /** What the engine makes of a key: a field of the schema, an operator, or nothing it takes. */
  function Step(schema: Schema, at: Spot, key: string): Option<Spot> {
    if schema.kind(at.path + [key]).Some? then Some(Entered(schema, at, key))
    else
      match schema.kind(at.path)
      case Some(Record(_)) =>
        if key in ["AND", "OR"] then Some(at.(form := Conditions))
        else if key == "NOT" then Some(Negated(at).(form := Conditions))
        else if key == "is" && at.form == Named then Some(at.(form := Compared))
        else if key == "isNot" && at.form == Named then Some(Negated(at).(form := Compared))
        else None
      case Some(Many) => if key == "none" then Some(Entered(schema, Negated(at), "some")) else None
      case Some(Column(_, _)) =>
        if key == "not" && at.form == Named then Some(Negated(at))
        else if key == "equals" && at.form == Named then Some(at.(form := Compared))
        else None
      case None => None
  }

  ghost predicate AnyRefused(answers: seq<Option<Answer>>) {
    exists i :: 0 <= i < |answers| && answers[i] == None
  }

  ghost function All(answers: seq<Option<Answer>>): Option<Answer> {
    if AnyRefused(answers) then None
    else if exists i :: 0 <= i < |answers| && answers[i] == Some(No) then Some(No)
    else if forall i :: 0 <= i < |answers| ==> answers[i] == Some(Yes) then Some(Yes)
    else Some(Unknown)
  }

  ghost function Any(answers: seq<Option<Answer>>): Option<Answer> {
    if AnyRefused(answers) then None
    else if exists i :: 0 <= i < |answers| && answers[i] == Some(Yes) then Some(Yes)
    else if forall i :: 0 <= i < |answers| ==> answers[i] == Some(No) then Some(No)
    else Some(Unknown)
  }

  /** The engine's answer for a row; None if it refuses the query. */
  ghost function Reads(schema: Schema, row: RowView, at: Spot, j: Json): Option<Answer>
    decreases j, 1
  {
    match j
    case NoEntry => ReadEmpty(schema, row, at)
    case Leaf(test) => ReadTest(schema, row, at, test)
    case List(items) => All(ReadEach(schema, row, at, items))
    case Entry(key, value) =>
      match Step(schema, at, key)
      case None => None
      case Some(next) =>
        if key == "OR" && next.path == at.path && value.List? then Any(ReadEach(schema, row, next, value.items))
        else Reads(schema, row, next, value)
  }

  ghost function ReadEach(schema: Schema, row: RowView, at: Spot, items: seq<Json>): (answers: seq<Option<Answer>>)
    ensures |answers| == |items|
    ensures forall i :: 0 <= i < |items| ==> answers[i] == Reads(schema, row, at, items[i])
    decreases items, 0
  {
    seq(|items|, i requires 0 <= i < |items| => Reads(schema, row, at, items[i]))
  }

  // ---------------------------------------------------------------- what a filter asks

  /** What a condition asks of a row. */
  function Asked(c: Where, row: RowView): Answer
    requires TestOf(c).Ok?
  {
    row(Parts(c.column), [], Some(TestOf(c).value))
  }

  predicate Asks(c: Where, row: RowView) {
    TestOf(c).Ok? && Asked(c, row) == Yes
  }

  predicate AsksAny(group: seq<Where>, row: RowView) {
    exists k :: 0 <= k < |group| && Asks(group[k], row)
  }

  /** What a filter asks: in every non-empty group some condition holds. */
  predicate AsksAll(groups: seq<seq<Where>>, row: RowView) {
    forall i :: 0 <= i < |groups| && groups[i] != [] ==> AsksAny(groups[i], row)
  }

  /** The condition has a value, and its column is a column of the schema whose type takes the test: text it can
      be read from, order only where the type has one, `like` only on strings, null only where it can be null. A
      related record takes a comparison with null, if there may be none. */
  predicate Sound(schema: Schema, c: Where) {
    TestOf(c).Ok? && !Idle(TestOf(c).value) && Takes(schema, Spot(Parts(c.column), [], Named), TestOf(c).value)
  }

  // ---------------------------------------------------------------- nesting

  /** Following `parts` from the object leads to the test. */
  predicate Reaches(j: Json, parts: seq<string>, test: Test) {
    if parts == [] then j == Leaf(test)
    else j.Entry? && j.key == parts[0] && Reaches(j.value, parts[1..], test)
  }

  /** A dotted column nests so that following its parts reaches the test, unless a part is `__proto__`. */
  lemma {:induction false} NestedReaches(parts: seq<string>, test: Test)
    ensures Reaches(Nested(parts, test), parts, test) <==> "__proto__" !in parts
  {
    if parts != [] {
      NestedReaches(parts[1..], test);
      assert parts == [parts[0]] + parts[1..];
    }
  }

  predicate Fields(schema: Schema, path: seq<string>, parts: seq<string>)
    decreases |parts|
  {
    if parts == [] then true
    else schema.kind(path + [parts[0]]).Some? && Fields(schema, path + [parts[0]], parts[1..])
  }

  lemma {:induction false} FieldsIff(schema: Schema, path: seq<string>, parts: seq<string>)
    requires IsSchema(schema) && schema.kind(path).Some?
    ensures Fields(schema, path, parts) <==> schema.kind(path + parts).Some?
    decreases |parts|
  {
    if parts == [] {
      assert path + [] == path;
    } else {
      var next, rest := path + [parts[0]], parts[1..];
      assert next + rest == path + parts;
      if schema.kind(next).Some? {
        FieldsIff(schema, next, rest);
      } else {
        NothingBelow(schema, next, rest);
      }
    }
  }

  /** Below a path that names nothing there is nothing. */
  lemma {:induction false} NothingBelow(schema: Schema, path: seq<string>, parts: seq<string>)
    requires IsSchema(schema) && schema.kind(path).None?
    ensures schema.kind(path + parts).None?
    decreases |parts|
  {
    if parts == [] {
      assert path + [] == path;
    } else {
      var next := path + [parts[0]];
      assert schema.kind(next).Some? ==> MayName(schema.kind(path), parts[0], schema.kind(next).value);
      NothingBelow(schema, next, parts[1..]);
      assert next + parts[1..] == path + parts;
    }
  }

  /** Where the engine comes to by following the parts of a column, and whether it came to the end. */
  datatype Trail = Trail(at: Spot, ended: bool)

  function Follow(schema: Schema, at: Spot, parts: seq<string>): Option<Trail>
    decreases |parts|
  {
    if parts == [] then Some(Trail(at, true))
    else if parts[0] == "__proto__" then Some(Trail(at, false))
    else
      match Step(schema, at, parts[0])
      case None => None
      case Some(next) => Follow(schema, next, parts[1..])
  }

  function ReadTrail(schema: Schema, row: RowView, t: Option<Trail>, test: Test): Option<Answer> {
    match t
    case None => None
    case Some(Trail(at, ended)) => if ended then ReadTest(schema, row, at, test) else ReadEmpty(schema, row, at)
  }

  lemma {:induction false} NestedIsReadAs(schema: Schema, row: RowView, at: Spot, parts: seq<string>, test: Test)
    ensures Reads(schema, row, at, Nested(parts, test)) == ReadTrail(schema, row, Follow(schema, at, parts), test)
    decreases |parts|
  {
    if parts != [] && parts[0] != "__proto__" {
      assert !Nested(parts[1..], test).List?;
      match Step(schema, at, parts[0])
      case None =>
      case Some(next) => NestedIsReadAs(schema, row, next, parts[1..], test);
    }
  }

  /** The engine comes to the path the column spells only through fields of the schema. */
  lemma {:induction false} OnlyFieldsLeadThere(schema: Schema, at: Spot, parts: seq<string>)
    requires Follow(schema, at, parts).Some?
    ensures var end := Follow(schema, at, parts).value.at;
      |at.path| <= |end.path| <= |at.path| + |parts| && end.path[..|at.path|] == at.path
    ensures var t := Follow(schema, at, parts).value;
      t.ended && t.at.path == at.path + parts ==> Fields(schema, at.path, parts)
    decreases |parts|
  {
    if parts != [] && parts[0] != "__proto__" {
      var key, rest := parts[0], parts[1..];
      var path, next := at.path, Step(schema, at, key).value;
      OnlyFieldsLeadThere(schema, next, rest);
      var end := Follow(schema, at, parts).value.at;
      if next.path != path {
        assert end.path[..|path|] == end.path[..|path| + 1][..|path|];
        assert end.path[|path|] == end.path[..|path| + 1][|path|] == next.path[|path|];
        assert (path + parts)[|path|] == key;
        assert next.path + rest == path + [next.path[|path|]] + rest;
        assert path + parts == path + [key] + rest;
      }
    }
  }

  /** The value of a field, or a record that cannot be null. */
  predicate Settled(schema: Schema, at: Spot) {
    at.form == Named || (at.form == Conditions && schema.kind(at.path) == Some(Record(false)))
  }

  lemma {:induction false} FieldsAreFollowed(schema: Schema, at: Spot, parts: seq<string>)
    requires IsSchema(schema) && schema.kind(at.path).Some? && Fields(schema, at.path, parts) && Settled(schema, at)
    ensures Follow(schema, at, parts).Some?
    ensures var t := Follow(schema, at, parts).value;
      t.ended && t.at.path == at.path + parts && t.at.negations == at.negations && Settled(schema, t.at)
    decreases |parts|
  {
    if parts == [] {
      assert at.path + [] == at.path;
    } else {
      var next := at.path + [parts[0]];
      assert MayName(schema.kind(at.path), parts[0], schema.kind(next).value);
      FieldsAreFollowed(schema, Entered(schema, at, parts[0]), parts[1..]);
      assert next + parts[1..] == at.path + parts;
    }
  }

  lemma FollowsColumn(schema: Schema, parts: seq<string>)
    requires IsSchema(schema) && schema.kind(parts).Some?
    ensures Follow(schema, TOP, parts).Some?
    ensures var t := Follow(schema, TOP, parts).value;
      t.ended && t.at.path == parts && t.at.negations == [] && Settled(schema, t.at)
  {
    assert [] + parts == parts;
    FieldsIff(schema, [], parts);
    FieldsAreFollowed(schema, TOP, parts);
  }

  predicate Odd(negations: seq<nat>) {
    |negations| % 2 == 1
  }

  /** The row that answers yes everywhere but to one question, with every negation turning the answer round. */
  function Except(parts: seq<string>, test: Test, answer: Answer): RowView {
    (path, negations, t) =>
      var a := if path == parts && t == Some(test) then answer else Yes;
      if Odd(negations) then Opposite(a) else a
  }

  lemma ExceptIsRow(schema: Schema, parts: seq<string>, test: Test, answer: Answer)
    requires parts != [] && answer in {Yes, No}
    ensures IsRow(schema, Except(parts, test, answer))
  {
    assert !Odd([]) && Odd([0]) && Odd([1]);
  }

  lemma ExceptElsewhere(parts: seq<string>, test: Test, answer: Answer, at: Spot, t: Option<Test>)
    requires at.path != parts || t != Some(test)
    ensures Except(parts, test, answer)(at.path, at.negations, t) == if Odd(at.negations) then No else Yes
  {
    var row := Except(parts, test, answer);
    if Odd(at.negations) {
      assert row(at.path, at.negations, t) == Opposite(Yes);
    } else {
      assert row(at.path, at.negations, t) == Yes;
    }
  }

  /** Main result for one condition. The engine reads it, for every row, as what it asks, exactly if it has a
      value and its column is a column of the schema whose type takes the test. Everything else is refused,
      negated, or tests nothing. */
  lemma ConditionMeansWhatItAsks(schema: Schema, c: Where)
    requires IsSchema(schema) && MapCondition(c).Ok?
    ensures (forall row: RowView | IsRow(schema, row) ::
               Reads(schema, row, TOP, MapCondition(c).value) == Some(Asked(c, row)))
            <==> Sound(schema, c)
  {
    if Sound(schema, c) {
      forall row: RowView | IsRow(schema, row)
        ensures Reads(schema, row, TOP, MapCondition(c).value) == Some(Asked(c, row))
      {
        SoundIsReadAsAsked(schema, c, row);
      }
    } else {
      var row := SomeRowDiffers(schema, c);
      assert IsRow(schema, row);
    }
  }

  lemma SoundIsReadAsAsked(schema: Schema, c: Where, row: RowView)
    requires IsSchema(schema) && Sound(schema, c)
    ensures Reads(schema, row, TOP, MapCondition(c).value) == Some(Asked(c, row))
  {
    FollowsColumn(schema, Parts(c.column));
    NestedIsReadAs(schema, row, TOP, Parts(c.column), TestOf(c).value);
  }

  lemma SomeRowDiffers(schema: Schema, c: Where) returns (row: RowView)
    requires IsSchema(schema) && MapCondition(c).Ok? && !Sound(schema, c)
    ensures IsRow(schema, row) && Reads(schema, row, TOP, MapCondition(c).value) != Some(Asked(c, row))
  {
    var parts, test := Parts(c.column), TestOf(c).value;
    var t := Follow(schema, TOP, parts);
    var answer := if t.Some? && Odd(t.value.at.negations) then Yes else No;
    row := Except(parts, test, answer);
    ExceptIsRow(schema, parts, test, answer);
    assert !Odd([]) && Asked(c, row) == answer;
    NestedIsReadAs(schema, row, TOP, parts, test);
    assert [] + parts == parts;
    if t.Some? {
      var at := t.value.at;
      OnlyFieldsLeadThere(schema, TOP, parts);
      FieldsIff(schema, [], parts);
      if t.value.ended && at.path == parts {
        FollowsColumn(schema, parts);
        assert Takes(schema, at, test) <==> Takes(schema, Spot(parts, [], Named), test);
      } else if t.value.ended {
        ExceptElsewhere(parts, test, answer, at, Some(test));
      }
      ExceptElsewhere(parts, test, answer, at, None);
    }
  }

  // ---------------------------------------------------------------- the whole filter

  predicate Compiles(c: Where) {
    TestOf(c).Ok?
  }

  lemma {:induction false} MapAllOk(group: seq<Where>)
    ensures MapAll(group).Ok? <==> forall k :: 0 <= k < |group| ==> Compiles(group[k])
    ensures MapAll(group).Ok? ==>
      |MapAll(group).value| == |group| && forall k :: 0 <= k < |group| ==> MapCondition(group[k]) == Ok(MapAll(group).value[k])
  {
    if group != [] {
      MapAllOk(group[1..]);
      assert group == [group[0]] + group[1..];
    }
  }

  predicate AllSound(schema: Schema, group: seq<Where>) {
    forall k :: 0 <= k < |group| ==> Sound(schema, group[k])
  }

  /** The engine's answer to one condition by itself. */
  ghost function ReadCondition(schema: Schema, row: RowView, c: Where): Option<Answer>
    requires Compiles(c)
  {
    Reads(schema, row, TOP, MapCondition(c).value)
  }

  ghost predicate RefusedIn(schema: Schema, row: RowView, group: seq<Where>) {
    exists k :: 0 <= k < |group| && Compiles(group[k]) && ReadCondition(schema, row, group[k]).None?
  }

  ghost predicate SelectedIn(schema: Schema, row: RowView, group: seq<Where>) {
    exists k :: 0 <= k < |group| && Compiles(group[k]) && ReadCondition(schema, row, group[k]) == Some(Yes)
  }

  /** A group is refused if one of its conditions is, and selects what one of them selects. */
  lemma GroupIsRead(schema: Schema, group: seq<Where>, row: RowView)
    requires IsSchema(schema) && group != [] && MapGroup(group).Ok?
    ensures var r := Reads(schema, row, TOP, MapGroup(group).value);
      && (r.None? <==> RefusedIn(schema, row, group))
      && (r.Some? ==> (r == Some(Yes) <==> SelectedIn(schema, row, group)))
  {
    MapAllOk(group);
    if |group| == 1 {
      assert Compiles(group[0]);
    } else {
      var js := MapAll(group).value;
      var answers := ReadEach(schema, row, TOP, js);
      forall k | 0 <= k < |group| ensures Compiles(group[k]) && answers[k] == ReadCondition(schema, row, group[k]) {
        assert MapCondition(group[k]) == Ok(js[k]);
      }
      OperatorAtTop(schema, "OR");
      assert Reads(schema, row, TOP, Entry("OR", List(js))) == Any(answers);
    }
  }

  lemma OperatorAtTop(schema: Schema, key: string)
    requires IsSchema(schema) && key in ["AND", "OR"]
    ensures Step(schema, TOP, key) == Some(TOP)
  {
    assert schema.kind([] + [key]).Some? ==> MayName(schema.kind([]), key, schema.kind([] + [key]).value);
  }

  ghost predicate Refused(schema: Schema, row: RowView, groups: seq<seq<Where>>) {
    exists i :: 0 <= i < |groups| && RefusedIn(schema, row, groups[i])
  }

  ghost predicate Selected(schema: Schema, row: RowView, groups: seq<seq<Where>>) {
    forall i :: 0 <= i < |groups| && groups[i] != [] ==> SelectedIn(schema, row, groups[i])
  }

  lemma {:induction false} GroupsAreRead(schema: Schema, groups: seq<seq<Where>>, row: RowView)
    requires IsSchema(schema) && MapGroups(groups).Ok?
    ensures var r := Reads(schema, row, TOP, List(MapGroups(groups).value));
      && (r.None? <==> Refused(schema, row, groups))
      && (r.Some? ==> (r == Some(Yes) <==> Selected(schema, row, groups)))
  {
    if groups != [] {
      var first, rest := groups[0], groups[1..];
      assert groups == [first] + rest;
      GroupsAreRead(schema, rest, row);
      RefusedTail(schema, row, groups);
      SelectedTail(schema, row, groups);
      if first != [] {
        GroupIsRead(schema, first, row);
        ListTail(schema, MapGroup(first).value, MapGroups(rest).value, row);
      }
    }
  }

  lemma RefusedTail(schema: Schema, row: RowView, groups: seq<seq<Where>>)
    requires groups != []
    ensures Refused(schema, row, groups) <==> RefusedIn(schema, row, groups[0]) || Refused(schema, row, groups[1..])
  {
    var rest := groups[1..];
    assert forall i :: 0 <= i < |rest| ==> rest[i] == groups[i + 1];
    if i :| 0 <= i < |groups| && RefusedIn(schema, row, groups[i]) {
      assert i > 0 ==> RefusedIn(schema, row, rest[i - 1]);
    }
    if i :| 0 <= i < |rest| && RefusedIn(schema, row, rest[i]) {
      assert RefusedIn(schema, row, groups[i + 1]);
    }
  }

  lemma SelectedTail(schema: Schema, row: RowView, groups: seq<seq<Where>>)
    requires groups != []
    ensures Selected(schema, row, groups)
            <==> (groups[0] == [] || SelectedIn(schema, row, groups[0])) && Selected(schema, row, groups[1..])
  {
    var rest := groups[1..];
    assert forall i :: 0 <= i < |rest| ==> rest[i] == groups[i + 1];
    if Selected(schema, row, rest) && (groups[0] == [] || SelectedIn(schema, row, groups[0])) {
      forall i | 0 <= i < |groups| && groups[i] != [] ensures SelectedIn(schema, row, groups[i]) {
        if i > 0 { assert rest[i - 1] != []; }
      }
    }
  }

  lemma ListTail(schema: Schema, j: Json, rest: seq<Json>, row: RowView)
    ensures var r, s, t := Reads(schema, row, TOP, List([j] + rest)), Reads(schema, row, TOP, j), Reads(schema, row, TOP, List(rest));
      (r.None? <==> s.None? || t.None?) && (r == Some(Yes) <==> s == Some(Yes) && t == Some(Yes))
  {
    var answers, tail := ReadEach(schema, row, TOP, [j] + rest), ReadEach(schema, row, TOP, rest);
    assert answers == [Reads(schema, row, TOP, j)] + tail;
    AllTail(Reads(schema, row, TOP, j), tail);
  }

  lemma AllTail(first: Option<Answer>, tail: seq<Option<Answer>>)
    ensures All([first] + tail).None? <==> first.None? || All(tail).None?
    ensures All([first] + tail) == Some(Yes) <==> first == Some(Yes) && All(tail) == Some(Yes)
  {
    var answers := [first] + tail;
    assert answers[0] == first && forall i :: 0 <= i < |tail| ==> tail[i] == answers[i + 1];
    AllIsYes(answers);
    AllIsYes(tail);
  }

  lemma AllIsYes(answers: seq<Option<Answer>>)
    ensures All(answers) == Some(Yes) <==> forall i :: 0 <= i < |answers| ==> answers[i] == Some(Yes)
  {
  }

  /** Main result on refusals: the engine refuses the compiled filter if and only if it refuses one of its
      conditions by itself, and otherwise selects the rows for which every non-empty group has a condition that
      selects the row. */
  lemma FilterIsReadByConditions(schema: Schema, groups: seq<seq<Where>>, row: RowView)
    requires IsSchema(schema) && BuildWhere(groups).Ok? && IsRow(schema, row)
    ensures var r := Reads(schema, row, TOP, BuildWhere(groups).value);
      && (r.None? <==> Refused(schema, row, groups))
      && (r.Some? ==> (r == Some(Yes) <==> Selected(schema, row, groups)))
  {
    GroupsAreRead(schema, groups, row);
    var js := MapGroups(groups).value;
    if |js| == 1 {
      assert js == [js[0]] + [];
      ListTail(schema, js[0], [], row);
    } else {
      OperatorAtTop(schema, "AND");
    }
  }

  /** Main result: the engine answers the compiled object and selects a row exactly if every non-empty group has
      a condition that holds for it, for every filter whose conditions are sound. */
  lemma WhereMeansTheFilter(schema: Schema, groups: seq<seq<Where>>, row: RowView)
    requires IsSchema(schema) && BuildWhere(groups).Ok? && IsRow(schema, row)
    requires forall i :: 0 <= i < |groups| ==> AllSound(schema, groups[i])
    ensures var r := Reads(schema, row, TOP, BuildWhere(groups).value);
      r.Some? && (r == Some(Yes) <==> AsksAll(groups, row))
  {
    FilterIsReadByConditions(schema, groups, row);
    forall i | 0 <= i < |groups|
      ensures !RefusedIn(schema, row, groups[i])
      ensures SelectedIn(schema, row, groups[i]) <==> AsksAny(groups[i], row)
    {
      SoundGroup(schema, groups[i], row);
    }
  }

  lemma SoundGroup(schema: Schema, group: seq<Where>, row: RowView)
    requires IsSchema(schema) && AllSound(schema, group)
    ensures !RefusedIn(schema, row, group)
    ensures SelectedIn(schema, row, group) <==> AsksAny(group, row)
  {
    forall k | 0 <= k < |group|
      ensures Compiles(group[k]) && ReadCondition(schema, row, group[k]) == Some(Asked(group[k], row))
    {
      assert Sound(schema, group[k]);
      SoundIsReadAsAsked(schema, group[k], row);
    }
  }

  /** A filter without conditions is the empty object, and selects every row. */
  lemma {:induction false} EmptyFilterSelectsAll(groups: seq<seq<Where>>, schema: Schema, row: RowView)
    requires forall i :: 0 <= i < |groups| ==> groups[i] == []
    requires IsSchema(schema) && IsRow(schema, row)
    ensures BuildWhere(groups) == Ok(NoEntry) && Reads(schema, row, TOP, NoEntry) == Some(Yes)
  {
    if groups != [] {
      EmptyFilterSelectsAll(groups[1..], schema, row);
    }
  }

  // ---------------------------------------------------------------- conditions that are refused, or mean something else

  lemma PartsOf(column: string, parts: seq<string>)
    requires parts != [] && column == FilterParser.Join(parts, '.')
    requires forall i :: 0 <= i < |parts| ==> FilterParser.Free(parts[i], '.')
    ensures Parts(column) == parts
  {
    FilterParser.SplitJoin(parts, '.');
  }

  lemma ParsesName(decode: FilterParser.Decoder, column: string, name: string, operator: FilterParser.Operator, value: Value)
    requires decode(column) == Some(column) && FilterParser.Free(column, ':') && FilterParser.Free(name, ':')
    requires FilterParser.OperatorOf(Strings.Lower(name)) == Some(operator)
    requires FilterParser.TypedValue(operator, FilterParser.Undefined) == Ok(value)
    ensures FilterParser.ParseCondition(decode, column + ":" + name) == Ok(FilterParser.Where(column, operator, value))
  {
    FilterParser.SplitAt(column, name, ':');
    assert column + [':'] + name == column + ":" + name;
    FilterParser.SplitAt(name, "", ':');
  }

  lemma ParsesText(decode: FilterParser.Decoder, column: string, name: string, operator: FilterParser.Operator, text: string)
    requires decode(column) == Some(column) && decode(text) == Some(text)
    requires FilterParser.Free(column, ':') && FilterParser.Free(name, ':') && FilterParser.Free(text, ':')
    requires FilterParser.OperatorOf(Strings.Lower(name)) == Some(operator)
    requires FilterParser.TypedValue(operator, FilterParser.Text(text)) == Ok(FilterParser.Text(text))
    ensures FilterParser.ParseCondition(decode, column + ":" + name + ":" + text)
            == Ok(FilterParser.Where(column, operator, FilterParser.Text(text)))
  {
    SplitsInThree(column, name, text);
    assert [column, name, text][2..] == [text];
  }

  lemma SplitsInThree(column: string, name: string, text: string)
    requires FilterParser.Free(column, ':') && FilterParser.Free(name, ':') && FilterParser.Free(text, ':')
    ensures FilterParser.Split(column + ":" + name + ":" + text, ':') == [column, name, text]
  {
    FilterParser.SplitAt(text, "", ':');
    FilterParser.SplitAt(name, text, ':');
    FilterParser.SplitAt(column, name + [':'] + text, ':');
    assert column + [':'] + (name + [':'] + text) == column + ":" + name + ":" + text;
  }

  lemma ColumnIsRead(schema: Schema, row: RowView, c: Where)
    requires IsSchema(schema) && Compiles(c) && schema.kind(Parts(c.column)).Some? && !Idle(TestOf(c).value)
    ensures ReadCondition(schema, row, c) == if Sound(schema, c) then Some(Asked(c, row)) else None
  {
    FollowsColumn(schema, Parts(c.column));
    NestedIsReadAs(schema, row, TOP, Parts(c.column), TestOf(c).value);
  }

  /** Every condition that can be written down and names a column of the schema, or a related record, is parsed
      and compiled; if it has a value it is then refused, on whatever row, if and only if the column does not
      take the test. */
  lemma RefusedIffNotTaken(encode: string -> string, decode: FilterParser.Decoder, schema: Schema, row: RowView, c: Where)
    requires FilterParser.IsCodec(encode, decode) && FilterParser.Renderable(c)
    requires IsSchema(schema) && schema.kind(Parts(c.column)).Some? && !c.value.Undefined?
    ensures FilterParser.ParseCondition(decode, FilterParser.RenderCondition(encode, c)) == Ok(c) && Compiles(c)
    ensures ReadCondition(schema, row, c).None? <==> !Takes(schema, Spot(Parts(c.column), [], Named), TestOf(c).value)
  {
    FilterParser.ConditionRoundTrip(encode, decode, c);
    ColumnIsRead(schema, row, c);
  }

  /** The fields of roles, and of the assignments a role has. */
  function RoleKind(path: seq<string>): Option<Kind> {
    if |path| == 0 then Some(Record(false))
    else if |path| == 1 then
      if path[0] in ["id", "name"] then Some(Column(StringType, false))
      else if path[0] in ["description", "archivedById"] then Some(Column(StringType, true))
      else if path[0] == "isProtected" then Some(Column(BooleanType, false))
      else if path[0] == "createdAt" then Some(Column(DateTimeType, false))
      else if path[0] == "archivedAt" then Some(Column(DateTimeType, true))
      else if path[0] == "archivedBy" then Some(Record(true))
      else if path[0] == "userRoles" then Some(Many) else None
    else if path[0] != "userRoles" || path[1] !in ["some", "every"] then None
    else if |path| == 2 then Some(Record(false))
    else if |path| == 3 then
      if path[2] in ["id", "userId", "roleId"] then Some(Column(StringType, false))
      else if path[2] == "assignedBy" then Some(Column(StringType, true))
      else if path[2] == "assignedAt" then Some(Column(DateTimeType, false)) else None
    else None
  }

  lemma RoleKindIsSchema(isDateTime: string -> bool, isDecimal: string -> bool)
    ensures IsSchema(Schema(RoleKind, isDateTime, isDecimal))
  {
    forall path: seq<string>, key: string | RoleKind(path + [key]).Some?
      ensures MayName(RoleKind(path), key, RoleKind(path + [key]).value)
    {
      var below := path + [key];
      assert below[|path|] == key && forall i :: 0 <= i < |path| ==> below[i] == path[i];
      assert |path| < 3;
    }
  }

  /** The condition is parsed and compiled, and the engine refuses it for this row. */
  ghost predicate IsRefused(decode: FilterParser.Decoder, schema: Schema, row: RowView, text: string) {
    var r := FilterParser.ParseCondition(decode, text);
    r.Ok? && Compiles(r.value) && ReadCondition(schema, row, r.value).None?
  }

  /** Text that the type of the column cannot be read from. */
  lemma UnreadableIsRefused(decode: FilterParser.Decoder, schema: Schema, row: RowView, column: string, text: string)
    requires decode(column) == Some(column) && decode(text) == Some(text)
    requires FilterParser.Free(column, ':') && FilterParser.Free(column, '.') && FilterParser.Free(text, ':')
    requires IsSchema(schema) && IsColumn(schema, [column])
    requires !Readable(schema, schema.kind([column]).value.columnType, text)
    ensures IsRefused(decode, schema, row, column + ":eq:" + text)
  {
    var c := FilterParser.Where(column, FilterParser.EQ, FilterParser.Text(text));
    ParsesEq();
    ParsesText(decode, column, "eq", FilterParser.EQ, text);
    assert column + ":" + "eq" + ":" + text == column + ":eq:" + text;
    PartsOf(column, [column]);
    ColumnIsRead(schema, row, c);
  }

  lemma ParsesEq()
    ensures FilterParser.OperatorOf(Strings.Lower("eq")) == Some(FilterParser.EQ) && FilterParser.Free("eq", ':')
  {
    assert Strings.Lower("eq") == "eq";
  }

  /** The filter `isProtected:eq:true` on roles. */
  lemma RoleFlagTakesNoText(decode: FilterParser.Decoder, isDateTime: string -> bool, isDecimal: string -> bool, row: RowView)
    requires decode("isProtected") == Some("isProtected") && decode("true") == Some("true")
    ensures IsRefused(decode, Schema(RoleKind, isDateTime, isDecimal), row, "isProtected:eq:true")
  {
    RoleKindIsSchema(isDateTime, isDecimal);
    UnreadableIsRefused(decode, Schema(RoleKind, isDateTime, isDecimal), row, "isProtected", "true");
    assert "isProtected" + ":eq:" + "true" == "isProtected:eq:true";
  }

  /** Neither `name:isnull` nor `name:notnull` is taken for a column that is never null. */
  lemma RequiredColumnTakesNoNull(decode: FilterParser.Decoder, schema: Schema, row: RowView, column: string)
    requires decode(column) == Some(column) && FilterParser.Free(column, ':') && FilterParser.Free(column, '.')
    requires IsSchema(schema) && IsColumn(schema, [column]) && !schema.kind([column]).value.nullable
    ensures IsRefused(decode, schema, row, column + ":" + "isnull")
    ensures IsRefused(decode, schema, row, column + ":" + "notnull")
  {
    assert Strings.Lower("isnull") == "isnull" && Strings.Lower("notnull") == "notnull";
    ParsesName(decode, column, "isnull", FilterParser.ISNULL, FilterParser.Null);
    ParsesName(decode, column, "notnull", FilterParser.NOTNULL, FilterParser.Null);
    PartsOf(column, [column]);
    ColumnIsRead(schema, row, FilterParser.Where(column, FilterParser.ISNULL, FilterParser.Null));
    ColumnIsRead(schema, row, FilterParser.Where(column, FilterParser.NOTNULL, FilterParser.Null));
  }

  /** A condition such as `name:eq` has no value: it is parsed and compiled, and then matches every row. */
  lemma NoValueMatchesEveryRow(decode: FilterParser.Decoder, schema: Schema, row: RowView, column: string)
    requires decode(column) == Some(column) && FilterParser.Free(column, ':') && FilterParser.Free(column, '.')
    requires IsSchema(schema) && IsColumn(schema, [column]) && IsRow(schema, row)
    ensures var c := FilterParser.Where(column, FilterParser.EQ, FilterParser.Undefined);
      && FilterParser.ParseCondition(decode, column + ":eq") == Ok(c)
      && Compiles(c) && ReadCondition(schema, row, c) == Some(Yes)
  {
    ParsesEq();
    ParsesName(decode, column, "eq", FilterParser.EQ, FilterParser.Undefined);
    assert column + ":" + "eq" == column + ":eq";
    PartsOf(column, [column]);
    FollowsColumn(schema, [column]);
    NestedIsReadAs(schema, row, TOP, [column], Equals(FilterParser.Undefined));
  }

  /** A condition such as `status.not:eq:ACTIVE` asks for a column below a column, and turns the answer of the
      column round: it selects the rows whose status is something else, and not those where it is unknown because
      the status is null. */
  lemma NotBelowAColumnNegates(decode: FilterParser.Decoder, schema: Schema, row: RowView, column: string, text: string)
    requires decode(column + ".not") == Some(column + ".not") && decode(text) == Some(text)
    requires FilterParser.Free(column, ':') && FilterParser.Free(column, '.') && FilterParser.Free(text, ':')
    requires IsSchema(schema) && IsColumn(schema, [column]) && IsRow(schema, row)
    ensures var c := FilterParser.Where(column + ".not", FilterParser.EQ, FilterParser.Text(text));
      && FilterParser.ParseCondition(decode, column + ".not" + ":eq:" + text) == Ok(c) && Compiles(c)
      && ReadCondition(schema, row, c) ==
           if Readable(schema, schema.kind([column]).value.columnType, text)
           then Some(Opposite(row([column], [], Some(Equals(c.value))))) else None
  {
    var parts := [column, "not"];
    ParsesEq();
    ParsesText(decode, column + ".not", "eq", FilterParser.EQ, text);
    assert column + ".not" + ":" + "eq" + ":" + text == column + ".not" + ":eq:" + text;
    assert parts[1..] == ["not"] && FilterParser.Join(parts, '.') == column + ".not";
    PartsOf(column + ".not", parts);
    FollowsNot(schema, column);
    NestedIsReadAs(schema, row, TOP, parts, Equals(FilterParser.Text(text)));
  }

  lemma FollowsNot(schema: Schema, column: string)
    requires IsSchema(schema) && IsColumn(schema, [column])
    ensures Follow(schema, TOP, [column, "not"]) == Some(Trail(Spot([column], [1], Named), true))
  {
    var at := Spot([column], [], Named);
    assert [] + [column] == [column] && [column, "not"][1..] == ["not"] && ["not"][1..] == [];
    assert schema.kind([] + [column]).Some? ==> MayName(schema.kind([]), column, schema.kind([] + [column]).value);
    assert column != "__proto__" && Step(schema, TOP, column) == Some(at);
    assert schema.kind([column] + ["not"]).Some? ==>
        MayName(schema.kind([column]), "not", schema.kind([column] + ["not"]).value);
    assert [] + [|[column]|] == [1];
    assert Step(schema, at, "not") == Some(Spot([column], [1], Named));
    assert Follow(schema, at, ["not"]) == Some(Trail(Spot([column], [1], Named), true));
  }

  // ---------------------------------------------------------------- what the operators mean

  /** How a stored value stands to the value of a filter. A null stands in no order to anything. */
  datatype Order = Below | Same | Above | Unrelated

  datatype Cell = Cell(isNull: bool, order: Value -> Order, contains: Value -> bool)

  /** The engine's answer to a test object that has a value. */
  predicate Passes(test: Test, x: Cell) {
    match test
    case Equals(v) => x.order(v) == Same
    case Not(v) => if v.Null? then !x.isNull else !x.isNull && x.order(v) != Same
    case Gt(v) => x.order(v) == Above
    case Gte(v) => x.order(v) in {Above, Same}
    case Lt(v) => x.order(v) == Below
    case Lte(v) => x.order(v) in {Below, Same}
    case Contains(v) => x.contains(v)
    case In(items) => exists i :: 0 <= i < |items| && x.order(FilterParser.Text(items[i])) == Same
    case Range(low, high) =>
      x.order(FilterParser.Text(low)) in {Above, Same} && x.order(FilterParser.Text(high)) in {Below, Same}
    case IsNull => x.isNull
  }

  predicate MeansEq(v: Value, x: Cell) {
    x.order(v) == Same
  }

  predicate MeansLt(v: Value, x: Cell) {
    x.order(v) == Below
  }

  predicate MeansGt(v: Value, x: Cell) {
    x.order(v) == Above
  }

  predicate MeansGte(v: Value, x: Cell) {
    MeansGt(v, x) || MeansEq(v, x)
  }

  predicate MeansLte(v: Value, x: Cell) {
    MeansLt(v, x) || MeansEq(v, x)
  }

  /** The language's operators by name, reduced to equality, less and greater. */
  predicate Means(name: string, value: Value, x: Cell) {
    if name == "ne" then !x.isNull && !MeansEq(value, x)
    else if name == "gt" then MeansGt(value, x)
    else if name == "gte" then MeansGte(value, x)
    else if name == "lt" then MeansLt(value, x)
    else if name == "lte" then MeansLte(value, x)
    else if name == "like" then x.contains(value)
    else if name == "in" then value.Items? && exists i :: 0 <= i < |value.items| && MeansEq(FilterParser.Text(value.items[i]), x)
    else if name == "between" then
      value.Items? && |value.items| == 2
      && MeansGte(FilterParser.Text(value.items[0]), x) && MeansLte(FilterParser.Text(value.items[1]), x)
    else if name == "isnull" then x.isNull
    else if name == "notnull" then !x.isNull
    else MeansEq(value, x)
  }

  /** Each operator is compiled to a test that passes exactly when what its name says holds, under every name
      that the parser takes; a name that operatorMap only inherits means equality. */
  lemma OperatorsKeepTheirMeaning(c: Where, name: string, x: Cell)
    requires FilterParser.OperatorOf(name) == Some(c.operator) && FilterParser.Typed(c)
    ensures TestOf(c).Ok? && (Passes(TestOf(c).value, x) <==> Means(name, c.value, x))
  {
    match c.operator
    case IN =>
      assert TestOf(c).value == In(c.value.items);
      assert forall i :: 0 <= i < |c.value.items| ==>
          (MeansEq(FilterParser.Text(c.value.items[i]), x) <==> x.order(FilterParser.Text(c.value.items[i])) == Same);
    case _ =>
  }

  // ---------------------------------------------------------------- no exception

  lemma {:induction false} MapGroupsOk(groups: seq<seq<Where>>)
    ensures MapGroups(groups).Ok? <==> forall i, k :: 0 <= i < |groups| && 0 <= k < |groups[i]| ==> Compiles(groups[i][k])
  {
    if groups != [] {
      MapGroupsOk(groups[1..]);
      MapAllOk(groups[0]);
      assert groups == [groups[0]] + groups[1..];
    }
  }

  /** The compiler never throws on what the parser returns, whatever text the parser was given. */
  lemma ParsedFiltersCompile(decode: FilterParser.Decoder, filter: string)
    ensures FilterParser.ParseFilter(decode, filter).Ok? ==>
      BuildWhere(FilterParser.ParseFilter(decode, filter).value).Ok?
  {
    if FilterParser.ParseFilter(decode, filter).Ok? {
      var groups := FilterParser.ParseFilter(decode, filter).value;
      FilterParser.GroupsAreTyped(decode, FilterParser.Split(filter, ';'));
      forall i, k | 0 <= i < |groups| && 0 <= k < |groups[i]|
        ensures Compiles(groups[i][k])
      {
        assert groups[i] in groups && groups[i][k] in groups[i];
      }
      MapGroupsOk(groups);
    }
  }

  // ---------------------------------------------------------------- the loop

  /** An object under construction: it has no entry yet, or one, or its prototype was set instead. */
  class Obj {
    var key: Option<string>
    var child: Obj?
    var test: Option<Test>
    var prototypeSet: bool

    constructor ()
      ensures key == None && child == null && test == None && !prototypeSet
    {
      key, child, test, prototypeSet := None, null, None, false;
    }

    /** `this[name] = {}`, and the new object. */
    method SetObject(name: string) returns (made: Obj)
      modifies this
      ensures fresh(made) && made.key == None && made.child == null && made.test == None && !made.prototypeSet
      ensures test == old(test)
      ensures name == "__proto__" ==> prototypeSet && key == old(key) && child == old(child)
      ensures name != "__proto__" ==> prototypeSet == old(prototypeSet) && key == Some(name) && child == made
    {
      made := new Obj();
      if name == "__proto__" {
        prototypeSet := true;
      } else {
        key, child := Some(name), made;
      }
    }

    /** `this[name] = test`. */
    method SetTest(name: string, t: Test)
      modifies this
      ensures child == old(child)
      ensures name == "__proto__" ==> prototypeSet && key == old(key) && test == old(test)
      ensures name != "__proto__" ==> prototypeSet == old(prototypeSet) && key == Some(name) && test == Some(t)
    {
      if name == "__proto__" {
        prototypeSet := true;
      } else {
        key, test := Some(name), Some(t);
      }
    }
  }

  /** What the chain of objects from number `k` on says. */
  ghost function Reading(chain: seq<Obj>, k: nat): Json
    requires k <= |chain|
    reads chain
    decreases |chain| - k
  {
    if k == |chain| then NoEntry
    else if chain[k].key.None? then NoEntry
    else if chain[k].test.Some? then Entry(chain[k].key.value, Leaf(chain[k].test.value))
    else if k + 1 < |chain| && chain[k].child == chain[k + 1] then Entry(chain[k].key.value, Reading(chain, k + 1))
    else NoEntry
  }

  /** Object `k` of the chain is done: it leads to the next one, or its prototype does. */
  ghost predicate LinkOk(chain: seq<Obj>, parts: seq<string>, k: nat)
    requires k + 1 < |chain| && k < |parts|
    reads chain
  {
    && chain[k].test == None
    && (if parts[k] == "__proto__" then chain[k].key == None
        else chain[k].key == Some(parts[k]) && chain[k].child == chain[k + 1])
  }

  ghost predicate LastOk(chain: seq<Obj>, parts: seq<string>, test: Test)
    requires |chain| == |parts| > 0
    reads chain
  {
    var k := |parts| - 1;
    if parts[k] == "__proto__" then chain[k].key == None && chain[k].test == None
    else chain[k].key == Some(parts[k]) && chain[k].test == Some(test)
  }

  lemma {:induction false} ReadingIsNested(chain: seq<Obj>, parts: seq<string>, test: Test, k: nat)
    requires |chain| == |parts| && k < |parts|
    requires forall i: nat :: i < |parts| - 1 ==> LinkOk(chain, parts, i)
    requires LastOk(chain, parts, test)
    ensures Reading(chain, k) == Nested(parts[k..], test)
    decreases |parts| - k
  {
    if k < |parts| - 1 {
      assert LinkOk(chain, parts, k);
      ReadingIsNested(chain, parts, test, k + 1);
      assert parts[k..][1..] == parts[k + 1..];
    } else {
      assert parts[k..][1..] == [];
    }
  }

  /** `nested`: the loop that moves `current` down while it makes the objects of the path. */
  method BuildNested(column: string, test: Test) returns (result: Obj, ghost chain: seq<Obj>)
    ensures |chain| == |Parts(column)| && chain[0] == result
    ensures forall k :: 0 <= k < |chain| ==> fresh(chain[k])
    ensures Reading(chain, 0) == Nested(Parts(column), test)
  {
    var parts := Parts(column);
    result := new Obj();
    var current := result;
    chain := [result];
    for i := 0 to |parts| - 1
      invariant |chain| == i + 1 && chain[0] == result && chain[i] == current
      invariant forall k :: 0 <= k <= i ==> fresh(chain[k])
      invariant forall k, l :: 0 <= k < l <= i ==> chain[k] != chain[l]
      invariant current.key == None && current.test == None
      invariant forall k: nat :: k < i ==> LinkOk(chain, parts, k)
    {
      ghost var before := chain;
      label Before:
      var next := current.SetObject(parts[i]);
      chain := chain + [next];
      forall k: nat | k < i + 1 ensures LinkOk(chain, parts, k) {
        if k < i {
          assert chain[k] == before[k] != current && chain[k + 1] == before[k + 1];
          assert old@Before(LinkOk(before, parts, k));
        }
      }
      current := next;
    }
    label Last:
    current.SetTest(parts[|parts| - 1], test);
    forall k: nat | k < |parts| - 1 ensures LinkOk(chain, parts, k) {
      assert chain[k] != current && old@Last(LinkOk(chain, parts, k));
    }
    ReadingIsNested(chain, parts, test, 0);
    assert parts[0..] == parts;
  }
}
