/** parseFilter: groups separated by ';', conditions by '|', and within a condition column, operator and
    value by ':'. Percent-decoding is a parameter that may fail. */
module FilterParser {
  import opened Options
  import opened Strings

  /** INHERITED: whatever operatorMap has from Object.prototype under a lower-case name. */
  datatype Operator = EQ | NE | GT | GTE | LT | LTE | LIKE | IN | BETWEEN | ISNULL | NOTNULL | INHERITED

  datatype Value = Undefined | Null | Text(text: string) | Items(items: seq<string>)

  datatype Where = Where(column: string, operator: Operator, value: Value)

  datatype Error = InvalidCondition | UnknownOperator | ValueRequired | TwoValuesRequired | BadEncoding

  type Decoder = string -> Option<string>

  // ---------------------------------------------------------------- strings

  function Split(s: string, sep: char): (parts: seq<string>)
    ensures |parts| >= 1
  {
    if s == "" then [""]
    else
      var rest := Split(s[1..], sep);
      if s[0] == sep then [""] + rest else [[s[0]] + rest[0]] + rest[1..]
  }

  function Join(parts: seq<string>, sep: char): string {
    if parts == [] then "" else if |parts| == 1 then parts[0] else parts[0] + [sep] + Join(parts[1..], sep)
  }

  function TrimStart(s: string): string {
    if s != "" && IsSpace(s[0]) then TrimStart(s[1..]) else s
  }

  function TrimEnd(s: string): string {
    if s != "" && IsSpace(s[|s| - 1]) then TrimEnd(s[..|s| - 1]) else s
  }

  function Trim(s: string): string {
    TrimEnd(TrimStart(s))
  }

  function TrimAll(parts: seq<string>): (out: seq<string>)
    ensures |out| == |parts| && forall i :: 0 <= i < |parts| ==> out[i] == Trim(parts[i])
  {
    seq(|parts|, i requires 0 <= i < |parts| => Trim(parts[i]))
  }

  // ---------------------------------------------------------------- parsing

  /** `operatorMap[name]`, for a name in lower case. */
  function OperatorOf(name: string): Option<Operator> {
    if name == "eq" then Some(EQ) else if name == "ne" then Some(NE)
    else if name == "lt" then Some(LT) else if name == "lte" then Some(LTE)
    else if name == "gt" then Some(GT) else if name == "gte" then Some(GTE)
    else if name == "like" then Some(LIKE) else if name == "in" then Some(IN)
    else if name == "between" then Some(BETWEEN) else if name == "isnull" then Some(ISNULL)
    else if name == "notnull" then Some(NOTNULL)
    else if name == "constructor" || name == "__proto__" then Some(INHERITED) else None
  }

  /** The decoded text after the second colon, if there is one. */
  function RawValue(decode: Decoder, parts: seq<string>): Result<Value, Error> {
    if |parts| <= 2 then Ok(Undefined)
    else match decode(Join(parts[2..], ':'))
      case None => Err(BadEncoding)
      case Some(text) => Ok(Text(text))
  }

  function TypedValue(operator: Operator, raw: Value): Result<Value, Error> {
    match operator
    case IN => if !raw.Text? then Err(ValueRequired) else Ok(Items(TrimAll(Split(raw.text, ','))))
    case BETWEEN =>
      if !raw.Text? then Err(ValueRequired)
      else
        var items := TrimAll(Split(raw.text, ','));
        if |items| != 2 then Err(TwoValuesRequired) else Ok(Items(items))
    case ISNULL => Ok(Null)
    case NOTNULL => Ok(Null)
    case _ => Ok(raw)
  }

  function ParseCondition(decode: Decoder, text: string): Result<Where, Error> {
    var parts := Split(text, ':');
    if |parts| < 2 then Err(InvalidCondition)
    else
      match decode(parts[0])
      case None => Err(BadEncoding)
      case Some(column) =>
        match OperatorOf(Lower(parts[1]))
        case None => Err(UnknownOperator)
        case Some(operator) =>
          match RawValue(decode, parts)
          case Err(e) => Err(e)
          case Ok(raw) =>
            match TypedValue(operator, raw)
            case Err(e) => Err(e)
            case Ok(value) => Ok(Where(column, operator, value))
  }

  function ParseConditions(decode: Decoder, texts: seq<string>): Result<seq<Where>, Error> {
    if texts == [] then Ok([])
    else
      match ParseCondition(decode, Trim(texts[0]))
      case Err(e) => Err(e)
      case Ok(c) =>
        match ParseConditions(decode, texts[1..])
        case Err(e) => Err(e)
        case Ok(rest) => Ok([c] + rest)
  }

  function ParseGroups(decode: Decoder, texts: seq<string>): Result<seq<seq<Where>>, Error> {
    if texts == [] then Ok([])
    else
      var group := Trim(texts[0]);
      match if group == "" then Ok([]) else ParseConditions(decode, Split(group, '|'))
      case Err(e) => Err(e)
      case Ok(g) =>
        match ParseGroups(decode, texts[1..])
        case Err(e) => Err(e)
        case Ok(rest) => Ok([g] + rest)
  }

  function ParseFilter(decode: Decoder, filter: string): Result<seq<seq<Where>>, Error> {
    if filter == "" then Ok([]) else ParseGroups(decode, Split(filter, ';'))
  }

  // ---------------------------------------------------------------- what the parser promises

  /** The value suits the operator. */
  predicate Typed(c: Where) {
    match c.operator
    case IN => c.value.Items? && c.value.items != []
    case BETWEEN => c.value.Items? && |c.value.items| == 2
    case ISNULL => c.value == Null
    case NOTNULL => c.value == Null
    case _ => c.value.Undefined? || c.value.Text?
  }

  lemma {:induction false} ConditionsAreTyped(decode: Decoder, texts: seq<string>)
    ensures var r := ParseConditions(decode, texts); r.Ok? ==> forall c :: c in r.value ==> Typed(c)
    ensures var r := ParseConditions(decode, texts); r.Ok? ==> |r.value| == |texts|
  {
    if texts != [] {
      ConditionsAreTyped(decode, texts[1..]);
    }
  }

  /** Everything the parser lets through is typed, whatever the input. */
  lemma {:induction false} GroupsAreTyped(decode: Decoder, texts: seq<string>)
    ensures var r := ParseGroups(decode, texts); r.Ok? ==> forall g, c :: g in r.value && c in g ==> Typed(c)
  {
    if texts != [] {
      GroupsAreTyped(decode, texts[1..]);
      ConditionsAreTyped(decode, Split(Trim(texts[0]), '|'));
    }
  }

  /** When a condition is refused: it has no operator, the operator is unknown, a text in it is badly encoded, a list
      operator has no value, or `between` has not two. */
  lemma RefusedIff(decode: Decoder, text: string)
    ensures var parts := Split(text, ':');
      ParseCondition(decode, text).Err? <==>
        || |parts| < 2 || decode(parts[0]).None? || OperatorOf(Lower(parts[1])).None?
        || (|parts| > 2 && decode(Join(parts[2..], ':')).None?)
        || (|parts| == 2 && OperatorOf(Lower(parts[1])).value in {IN, BETWEEN})
        || (OperatorOf(Lower(parts[1])) == Some(BETWEEN) && |Split(decode(Join(parts[2..], ':')).value, ',')| != 2)
  {
  }

  // ---------------------------------------------------------------- round trip

  function NameOf(operator: Operator): string {
    match operator
    case EQ => "eq" case NE => "ne" case GT => "gt" case GTE => "gte" case LT => "lt" case LTE => "lte"
    case LIKE => "like" case IN => "in" case BETWEEN => "between" case ISNULL => "isnull"
    case NOTNULL => "notnull" case INHERITED => "constructor"
  }

  predicate Reserved(c: char) {
    c == ';' || c == '|' || c == ':' || IsSpace(c)
  }

  predicate Plain(s: string) {
    forall i :: 0 <= i < |s| ==> !Reserved(s[i])
  }

  predicate Free(s: string, c: char) {
    forall i :: 0 <= i < |s| ==> s[i] != c
  }

  /** What is assumed of encodeURIComponent: it can be undone and leaves no separator and no white space. */
  ghost predicate IsCodec(encode: string -> string, decode: Decoder) {
    forall s :: decode(encode(s)) == Some(s) && Plain(encode(s))
  }

  /** Items that survive being joined by commas. */
  predicate Separable(items: seq<string>) {
    items != [] && forall i :: 0 <= i < |items| ==> Free(items[i], ',') && Trim(items[i]) == items[i]
  }

  predicate Renderable(c: Where) {
    Typed(c) && (c.value.Items? ==> Separable(c.value.items))
  }

  function RenderParts(encode: string -> string, c: Where): seq<string> {
    match c.value
    case Undefined => [encode(c.column), NameOf(c.operator)]
    case Null => [encode(c.column), NameOf(c.operator)]
    case Text(text) => [encode(c.column), NameOf(c.operator), encode(text)]
    case Items(items) => [encode(c.column), NameOf(c.operator), encode(Join(items, ','))]
  }

  function RenderCondition(encode: string -> string, c: Where): string {
    Join(RenderParts(encode, c), ':')
  }

  function RenderGroup(encode: string -> string, g: seq<Where>): string {
    Join(seq(|g|, i requires 0 <= i < |g| => RenderCondition(encode, g[i])), '|')
  }

  function Render(encode: string -> string, groups: seq<seq<Where>>): string {
    Join(seq(|groups|, i requires 0 <= i < |groups| => RenderGroup(encode, groups[i])), ';')
  }

  lemma {:induction false} SplitAt(x: string, s: string, sep: char)
    requires Free(x, sep)
    ensures Split(x + [sep] + s, sep) == [x] + Split(s, sep)
    ensures Split(x, sep) == [x]
  {
    if x != "" {
      SplitAt(x[1..], s, sep);
      assert (x + [sep] + s)[1..] == x[1..] + [sep] + s;
      assert [x[0]] + x[1..] == x;
    } else {
      assert (x + [sep] + s)[1..] == s;
    }
  }

  lemma {:induction false} SplitJoin(parts: seq<string>, sep: char)
    requires parts != [] && forall i :: 0 <= i < |parts| ==> Free(parts[i], sep)
    ensures Split(Join(parts, sep), sep) == parts
  {
    var rest := parts[1..];
    SplitAt(parts[0], Join(rest, sep), sep);
    if |parts| > 1 {
      SplitJoin(rest, sep);
      assert Join(parts, sep) == parts[0] + [sep] + Join(rest, sep);
      assert [parts[0]] + rest == parts;
    } else {
      assert [parts[0]] == parts;
    }
  }

  predicate Spaceless(s: string) {
    forall i :: 0 <= i < |s| ==> !IsSpace(s[i])
  }

  lemma TrimSpaceless(s: string)
    requires Spaceless(s)
    ensures Trim(s) == s
  {
  }

  lemma {:induction false} JoinSpaceless(parts: seq<string>, sep: char)
    requires !IsSpace(sep) && forall i :: 0 <= i < |parts| ==> Spaceless(parts[i])
    ensures Spaceless(Join(parts, sep))
  {
    if |parts| > 1 {
      JoinSpaceless(parts[1..], sep);
    }
  }

  lemma {:induction false} JoinFree(parts: seq<string>, sep: char, c: char)
    requires sep != c && forall i :: 0 <= i < |parts| ==> Free(parts[i], c)
    ensures Free(Join(parts, sep), c)
  {
    if |parts| > 1 {
      JoinFree(parts[1..], sep, c);
    }
  }

  lemma NameIsPlain(operator: Operator)
    ensures Plain(NameOf(operator))
  {
  }

  lemma NameIsLower(operator: Operator)
    ensures Lower(NameOf(operator)) == NameOf(operator)
  {
  }

  lemma NameIsRead(operator: Operator)
    ensures OperatorOf(NameOf(operator)) == Some(operator)
  {
  }

  lemma ItemsRoundTrip(items: seq<string>)
    requires Separable(items)
    ensures TrimAll(Split(Join(items, ','), ',')) == items
  {
    SplitJoin(items, ',');
  }

  lemma PartsArePlain(encode: string -> string, decode: Decoder, c: Where)
    requires IsCodec(encode, decode)
    ensures forall i :: 0 <= i < |RenderParts(encode, c)| ==> Plain(RenderParts(encode, c)[i])
  {
    NameIsPlain(c.operator);
    assert Plain(encode(c.column));
  }

  /** A rendered condition holds no separator of a higher level and no white space. */
  predicate Clean(text: string) {
    text != "" && Spaceless(text) && Free(text, '|') && Free(text, ';')
  }

  lemma ConditionRoundTrip(encode: string -> string, decode: Decoder, c: Where)
    requires IsCodec(encode, decode) && Renderable(c)
    ensures ParseCondition(decode, RenderCondition(encode, c)) == Ok(c) && Clean(RenderCondition(encode, c))
  {
    var parts := RenderParts(encode, c);
    PartsArePlain(encode, decode, c);
    SplitJoin(parts, ':');
    NameIsLower(c.operator);
    NameIsRead(c.operator);
    JoinSpaceless(parts, ':');
    JoinFree(parts, ':', '|');
    JoinFree(parts, ':', ';');
    if |parts| == 3 {
      assert parts[2..] == [parts[2]];
      if c.value.Items? { ItemsRoundTrip(c.value.items); }
    }
  }

  lemma ParseConditionsStep(decode: Decoder, t: string, ts: seq<string>)
    requires ParseCondition(decode, Trim(t)).Ok? && ParseConditions(decode, ts).Ok?
    ensures ParseConditions(decode, [t] + ts) ==
            Ok([ParseCondition(decode, Trim(t)).value] + ParseConditions(decode, ts).value)
  {
    assert ([t] + ts)[1..] == ts;
  }

  /** The text is read, trimmed, as this condition. */
  predicate ReadAs(decode: Decoder, text: string, c: Where) {
    ParseCondition(decode, Trim(text)) == Ok(c) && Clean(text)
  }

  lemma RenderedIsRead(encode: string -> string, decode: Decoder, c: Where)
    requires IsCodec(encode, decode) && Renderable(c)
    ensures ReadAs(decode, RenderCondition(encode, c), c)
  {
    ConditionRoundTrip(encode, decode, c);
    TrimSpaceless(RenderCondition(encode, c));
  }

  lemma {:induction false} AllRead(decode: Decoder, g: seq<Where>, texts: seq<string>)
    requires |texts| == |g| && forall i :: 0 <= i < |g| ==> ReadAs(decode, texts[i], g[i])
    ensures ParseConditions(decode, texts) == Ok(g)
  {
    if g != [] {
      var t, ts := texts[0], texts[1..];
      AllRead(decode, g[1..], ts);
      ParseConditionsStep(decode, t, ts);
      assert [g[0]] + g[1..] == g;
      assert [t] + ts == texts;
    }
  }

  lemma ConditionsRoundTrip(encode: string -> string, decode: Decoder, g: seq<Where>, texts: seq<string>)
    requires IsCodec(encode, decode) && forall i :: 0 <= i < |g| ==> Renderable(g[i])
    requires |texts| == |g| && forall i :: 0 <= i < |g| ==> texts[i] == RenderCondition(encode, g[i])
    ensures ParseConditions(decode, texts) == Ok(g)
    ensures forall i :: 0 <= i < |texts| ==> Clean(texts[i])
  {
    forall i | 0 <= i < |g| ensures ReadAs(decode, texts[i], g[i]) {
      RenderedIsRead(encode, decode, g[i]);
    }
    AllRead(decode, g, texts);
  }

  /** A group comes back from its text, and only the empty group has an empty text. */
  lemma GroupRoundTrip(encode: string -> string, decode: Decoder, g: seq<Where>)
    requires IsCodec(encode, decode) && forall i :: 0 <= i < |g| ==> Renderable(g[i])
    ensures var text := RenderGroup(encode, g);
      && Spaceless(text) && Free(text, ';') && (text == "" <==> g == [])
      && (g != [] ==> ParseConditions(decode, Split(text, '|')) == Ok(g))
  {
    var texts := seq(|g|, i requires 0 <= i < |g| => RenderCondition(encode, g[i]));
    ConditionsRoundTrip(encode, decode, g, texts);
    assert forall i :: 0 <= i < |texts| ==> Clean(texts[i]);
    JoinSpaceless(texts, '|');
    JoinFree(texts, '|', ';');
    if g != [] {
      SplitJoin(texts, '|');
    }
  }

  lemma {:induction false} GroupsRoundTrip(encode: string -> string, decode: Decoder, groups: seq<seq<Where>>, texts: seq<string>)
    requires IsCodec(encode, decode)
    requires forall i, j :: 0 <= i < |groups| && 0 <= j < |groups[i]| ==> Renderable(groups[i][j])
    requires |texts| == |groups| && forall i :: 0 <= i < |groups| ==> texts[i] == RenderGroup(encode, groups[i])
    ensures ParseGroups(decode, texts) == Ok(groups)
    ensures forall i :: 0 <= i < |texts| ==> Free(texts[i], ';')
  {
    if groups != [] {
      GroupRoundTrip(encode, decode, groups[0]);
      TrimSpaceless(texts[0]);
      GroupsRoundTrip(encode, decode, groups[1..], texts[1..]);
      assert [groups[0]] + groups[1..] == groups;
      forall i | 0 <= i < |texts| ensures Free(texts[i], ';') {
        if i > 0 { assert texts[i] == texts[1..][i - 1]; }
      }
    }
  }

  /** Every filter can be written down and is read back unchanged, except a single empty group, whose text is
      empty and reads as no group at all. */
  lemma FilterRoundTrip(encode: string -> string, decode: Decoder, groups: seq<seq<Where>>)
    requires IsCodec(encode, decode)
    requires forall i, j :: 0 <= i < |groups| && 0 <= j < |groups[i]| ==> Renderable(groups[i][j])
    ensures ParseFilter(decode, Render(encode, groups)) == Ok(groups) <==> groups != [[]]
  {
    var texts := seq(|groups|, i requires 0 <= i < |groups| => RenderGroup(encode, groups[i]));
    GroupsRoundTrip(encode, decode, groups, texts);
    if |groups| == 1 {
      GroupRoundTrip(encode, decode, groups[0]);
      SplitJoin(texts, ';');
      if groups[0] == [] { assert groups == [[]]; }
    } else if groups != [] {
      SplitJoin(texts, ';');
      assert Render(encode, groups) == texts[0] + [';'] + Join(texts[1..], ';');
    }
  }
}
