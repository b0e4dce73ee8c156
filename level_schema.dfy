/** The level input schema (src/features/levels/level.ts): an object whose
    `title` is a string of at least three characters, whose `description` is
    an optional string, whose `order_index` is an integer of at least one
    (one when absent), whose `content` is anything or absent, and whose
    `is_active` is a boolean (false when absent). Parsing either yields the
    level with its defaults filled in, or the list of issues found, field by
    field in the order the schema declares them. */
module LevelSchema {
  import opened Prelude

  /** A parsed JSON value. */
  datatype Json =
    | JNull
    | JBool(b: bool)
    | JNumber(n: real)
    | JString(s: string)
    | JArray(items: seq<Json>)
    | JObject(fields: map<string, Json>)

  /** A level as the schema outputs it. */
  datatype LevelInput = LevelInput(title: string, description: Option<string>, orderIndex: int,
                                   content: Option<Json>, isActive: bool)

  datatype Path = Root | Title | Description | OrderIndex | IsActive

  /** The issues the schema reports: a required field that is absent, a
      value of the wrong type, a number that is not an integer, and a value
      below its minimum, with the message the schema gives for it. */
  datatype Issue =
    | Required(path: Path)
    | InvalidType(path: Path)
    | NotInteger(path: Path)
    | TooSmall(path: Path, message: Option<string>)

  datatype Parsed = Accepted(level: LevelInput) | Rejected(issues: seq<Issue>)

  const TitleMinLength: nat := 3
  const TitleTooShort: string := "Title must be at least 3 characters"
  const MinOrderIndex: int := 1
  const DefaultOrderIndex: int := 1
  const DefaultIsActive: bool := false

  predicate IsInteger(n: real) {
    n == n.Floor as real
  }

  function TitleIssues(v: Option<Json>): seq<Issue> {
    match v
    case None => [Required(Title)]
    case Some(JString(s)) => if |s| >= TitleMinLength then [] else [TooSmall(Title, Some(TitleTooShort))]
    case Some(_) => [InvalidType(Title)]
  }

  function DescriptionIssues(v: Option<Json>): seq<Issue> {
    match v
    case None => []
    case Some(JString(_)) => []
    case Some(_) => [InvalidType(Description)]
  }

  /** Both number checks run, so a fraction below one is reported twice. */
  function OrderIndexIssues(v: Option<Json>): seq<Issue> {
    match v
    case None => []
    case Some(JNumber(n)) =>
      (if IsInteger(n) then [] else [NotInteger(OrderIndex)])
      + (if n >= MinOrderIndex as real then [] else [TooSmall(OrderIndex, None)])
    case Some(_) => [InvalidType(OrderIndex)]
  }

  function IsActiveIssues(v: Option<Json>): seq<Issue> {
    match v
    case None => []
    case Some(JBool(_)) => []
    case Some(_) => [InvalidType(IsActive)]
  }

  function Field(fields: map<string, Json>, key: string): Option<Json> {
    if key in fields then Some(fields[key]) else None
  }

  /** The issues of the four fields, in the order the schema declares
      them: none exactly when every field passes, and never one about the
      root. */
  function FieldIssues(fields: map<string, Json>): (r: seq<Issue>)
    ensures r == [] <==>
      && TitleIssues(Field(fields, "title")) == [] && DescriptionIssues(Field(fields, "description")) == []
      && OrderIndexIssues(Field(fields, "order_index")) == [] && IsActiveIssues(Field(fields, "is_active")) == []
    ensures forall i | i in r :: i.path != Root
  {
    TitleIssues(Field(fields, "title"))
    + DescriptionIssues(Field(fields, "description"))
    + OrderIndexIssues(Field(fields, "order_index"))
    + IsActiveIssues(Field(fields, "is_active"))
  }

  /** `levelSchema.safeParse(input)`: keys the schema does not name are
      dropped. */
  function ParseLevel(input: Json): (r: Parsed)
    ensures r.Rejected? ==> |r.issues| > 0
    ensures !input.JObject? ==> r == Rejected([InvalidType(Root)])
    ensures r.Accepted? ==> ValidLevel(r.level)
  {
    if !input.JObject? then Rejected([InvalidType(Root)])
    else
      var fields := input.fields;
      var issues := FieldIssues(fields);
      if issues != [] then Rejected(issues)
      else
        var description := Field(fields, "description");
        var orderIndex := Field(fields, "order_index");
        var isActive := Field(fields, "is_active");
        Accepted(LevelInput(
          Field(fields, "title").value.s,
          if description.Some? then Some(description.value.s) else None,
          if orderIndex.Some? then orderIndex.value.n.Floor else DefaultOrderIndex,
          Field(fields, "content"),
          if isActive.Some? then isActive.value.b else DefaultIsActive))
  }

  /** What every accepted level satisfies. */
  predicate ValidLevel(l: LevelInput) {
    |l.title| >= TitleMinLength && l.orderIndex >= MinOrderIndex
  }

  /** A level written back as the object the schema reads. */
  function Encode(l: LevelInput): Json {
    var required := map["title" := JString(l.title), "order_index" := JNumber(l.orderIndex as real),
                        "is_active" := JBool(l.isActive)];
    var withDescription := if l.description.Some? then required["description" := JString(l.description.value)] else required;
    JObject(if l.content.Some? then withDescription["content" := l.content.value] else withDescription)
  }

  /** An object is accepted exactly when its title is a string of at least
      three characters, its description is absent or a string, its order
      index is absent or an integer of at least one, and its active flag is
      absent or a boolean; the content is never checked. */
  lemma AcceptedExactly(fields: map<string, Json>)
    ensures ParseLevel(JObject(fields)).Accepted? <==>
      && "title" in fields && fields["title"].JString? && |fields["title"].s| >= 3
      && ("description" in fields ==> fields["description"].JString?)
      && ("order_index" in fields ==> fields["order_index"].JNumber? && IsInteger(fields["order_index"].n)
                                      && fields["order_index"].n >= 1.0)
      && ("is_active" in fields ==> fields["is_active"].JBool?)
  {
  }

  /** The issues of each field are about that field. */
  lemma IssuePaths(fields: map<string, Json>)
    ensures forall i | i in TitleIssues(Field(fields, "title")) :: i.path == Title
    ensures forall i | i in DescriptionIssues(Field(fields, "description")) :: i.path == Description
    ensures forall i | i in OrderIndexIssues(Field(fields, "order_index")) :: i.path == OrderIndex
    ensures forall i | i in IsActiveIssues(Field(fields, "is_active")) :: i.path == IsActive
  {
  }

  /** An issue is reported when one of the fields reports it. */
  lemma InFieldIssues(fields: map<string, Json>, i: Issue)
    ensures i in FieldIssues(fields) <==>
      || i in TitleIssues(Field(fields, "title"))
      || i in DescriptionIssues(Field(fields, "description"))
      || i in OrderIndexIssues(Field(fields, "order_index"))
      || i in IsActiveIssues(Field(fields, "is_active"))
  {
  }

  /** A missing, mistyped or short title is reported, and only then. */
  lemma RejectionNamesTheTitle(fields: map<string, Json>)
    ensures var issues := FieldIssues(fields);
      && (Required(Title) in issues <==> "title" !in fields)
      && (InvalidType(Title) in issues <==> "title" in fields && !fields["title"].JString?)
      && (TooSmall(Title, Some(TitleTooShort)) in issues <==>
            "title" in fields && fields["title"].JString? && |fields["title"].s| < 3)
  {
    IssuePaths(fields);
    InFieldIssues(fields, Required(Title));
    InFieldIssues(fields, InvalidType(Title));
    InFieldIssues(fields, TooSmall(Title, Some(TitleTooShort)));
  }

  /** A description of the wrong kind is reported, and only then. */
  lemma RejectionNamesTheDescription(fields: map<string, Json>)
    ensures InvalidType(Description) in FieldIssues(fields) <==>
      "description" in fields && !fields["description"].JString?
  {
    IssuePaths(fields);
    InFieldIssues(fields, InvalidType(Description));
  }

  /** An order index that is not a number, not an integer or below one is
      reported as such, and only then. */
  lemma RejectionNamesTheOrderIndex(fields: map<string, Json>)
    ensures var issues := FieldIssues(fields);
      && (InvalidType(OrderIndex) in issues <==> "order_index" in fields && !fields["order_index"].JNumber?)
      && (NotInteger(OrderIndex) in issues <==>
            "order_index" in fields && fields["order_index"].JNumber? && !IsInteger(fields["order_index"].n))
      && (TooSmall(OrderIndex, None) in issues <==>
            "order_index" in fields && fields["order_index"].JNumber? && fields["order_index"].n < 1.0)
  {
    IssuePaths(fields);
    InFieldIssues(fields, InvalidType(OrderIndex));
    InFieldIssues(fields, NotInteger(OrderIndex));
    InFieldIssues(fields, TooSmall(OrderIndex, None));
  }

  /** An active flag that is not a boolean is reported, and only then. */
  lemma RejectionNamesTheActiveFlag(fields: map<string, Json>)
    ensures InvalidType(IsActive) in FieldIssues(fields) <==> "is_active" in fields && !fields["is_active"].JBool?
  {
    IssuePaths(fields);
    InFieldIssues(fields, InvalidType(IsActive));
  }

  /** Absent fields take their defaults: order one, inactive, no
      description and no content. */
  lemma DefaultsFillIn(title: string)
    requires |title| >= 3
    ensures ParseLevel(JObject(map["title" := JString(title)])) == Accepted(LevelInput(title, None, 1, None, false))
  {
    var fields := map["title" := JString(title)];
    assert "order_index" !in fields && "is_active" !in fields && "description" !in fields && "content" !in fields;
  }

  /** A valid level written back parses to itself, and only valid levels
      do. */
  lemma EncodeRoundTrips(l: LevelInput)
    ensures ParseLevel(Encode(l)) == Accepted(l) <==> ValidLevel(l)
  {
    var fields := Encode(l).fields;
    assert Field(fields, "title") == Some(JString(l.title));
    assert Field(fields, "order_index") == Some(JNumber(l.orderIndex as real));
    assert Field(fields, "is_active") == Some(JBool(l.isActive));
    assert Field(fields, "description") == if l.description.Some? then Some(JString(l.description.value)) else None;
    assert Field(fields, "content") == l.content;
    assert IsInteger(l.orderIndex as real);
  }

  /** Parsing is idempotent: the level accepted from any object, written
      back and parsed again, is the same level. */
  lemma ParseIsIdempotent(input: Json)
    requires ParseLevel(input).Accepted?
    ensures ParseLevel(Encode(ParseLevel(input).level)) == ParseLevel(input)
  {
    EncodeRoundTrips(ParseLevel(input).level);
  }
}
