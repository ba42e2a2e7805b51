/**
 * The request builders of `services/formsService.js`: the `createItem`
 * request `buildQuestionRequest` makes of one loosely typed question, the
 * consecutive positions `addQuestionsToForm` gives a batch of them, the
 * `updateFormInfo` requests of `updateForm` and the masked `updateItem`
 * request of `updateQuestion`. The Forms API itself is not modelled: each
 * operation yields the batch it would send, if any, and its reply.
 */
module Forms {
  import opened Wrappers
  import opened Json

  // ---- question types ----

  /** The question kinds the builder tells apart. */
  datatype Kind = Radio | Checkbox | DropDown | Paragraph | Scale | Date | Time | FileUpload | ShortText

  /** The lower-case type names that select each kind; every other name is a short-text question. */
  function Aliases(k: Kind): seq<string> {
    match k
    case Radio => ["multiple_choice", "radio"]
    case Checkbox => ["checkbox", "checkboxes"]
    case DropDown => ["dropdown", "select"]
    case Paragraph => ["paragraph", "long_text"]
    case Scale => ["linear_scale", "scale"]
    case Date => ["date"]
    case Time => ["time"]
    case FileUpload => ["file_upload"]
    case ShortText => []
  }

  /** The `if` chain on the lower-cased type. */
  function KindOf(t: string): Kind {
    if t == "multiple_choice" || t == "radio" then Radio
    else if t == "checkbox" || t == "checkboxes" then Checkbox
    else if t == "dropdown" || t == "select" then DropDown
    else if t == "paragraph" || t == "long_text" then Paragraph
    else if t == "linear_scale" || t == "scale" then Scale
    else if t == "date" then Date
    else if t == "time" then Kind.Time
    else if t == "file_upload" then FileUpload
    else ShortText
  }

  /** Two texts that differ at most in the case of ASCII letters. */
  predicate SameIgnoringCase(t: string, u: string) {
    |t| == |u| && forall i :: 0 <= i < |t| ==> LowerChar(t[i]) == LowerChar(u[i])
  }

  /** Each kind is selected by exactly its own aliases; every other name is a short-text question. */
  lemma KindOfAliases(t: string, k: Kind)
    ensures k != ShortText ==> (KindOf(t) == k <==> t in Aliases(k))
    ensures KindOf(t) == ShortText <==> forall j: Kind :: j != ShortText ==> t !in Aliases(j)
  {
    if KindOf(t) != ShortText {
      assert t in Aliases(KindOf(t));
    }
  }

  /**
   * The type is matched whatever the case of its letters: two type texts
   * that differ only in case lower-case to the same name, hence the same kind.
   */
  lemma KindIgnoresCase(t: string, u: string)
    requires SameIgnoringCase(t, u)
    ensures Lower(t) == Lower(u) && KindOf(Lower(t)) == KindOf(Lower(u))
  {
    assert forall i :: 0 <= i < |t| ==> Lower(t)[i] == Lower(u)[i];
  }

  // ---- options ----

  /** `typeof opt === 'string' ? opt : opt.value || opt.label || String(opt)`; reading a property of `undefined` or `null` throws. */
  function OptionValue(opt: Value): (r: Result<Value>)
    ensures r.Err? <==> opt.Undefined? || opt.Null?
    ensures opt.Str? ==> r == Ok(opt)
  {
    if opt.Str? then Ok(opt)
    else if opt.Undefined? || opt.Null? then Err("Cannot read properties of " + Display(opt) + " (reading 'value')")
    else Ok(Or(Or(OptionalGet(opt, "value"), OptionalGet(opt, "label")), Str(Display(opt))))
  }

  /** `options.map(opt => ({ value: ... }))`: the first option that cannot be read throws. */
  function OptionList(opts: seq<Value>): (r: Result<seq<Value>>)
    ensures r.Ok? <==> forall i :: 0 <= i < |opts| ==> OptionValue(opts[i]).Ok?
    ensures r.Ok? ==> |r.value| == |opts|
    ensures r.Ok? ==> forall i :: 0 <= i < |opts| ==> r.value[i] == Obj(map["value" := OptionValue(opts[i]).value])
  {
    if opts == [] then Ok([])
    else
      var head := OptionValue(opts[0]);
      var tail := OptionList(opts[1..]);
      if head.Err? then Err(head.message)
      else if tail.Err? then
        assert exists i :: 1 <= i < |opts| && OptionValue(opts[i]).Err? by {
          var j :| 0 <= j < |opts[1..]| && OptionValue(opts[1..][j]).Err?;
          assert opts[j + 1] == opts[1..][j];
        }
        Err(tail.message)
      else
        var r := [Obj(map["value" := head.value])] + tail.value;
        assert forall i :: 1 <= i < |opts| ==> r[i] == tail.value[i - 1] && opts[i] == opts[1..][i - 1];
        Ok(r)
  }

  /** A string option is offered as it is, at its own position. */
  lemma StringOptionsVerbatim(opts: seq<Value>, i: nat)
    requires OptionList(opts).Ok? && i < |opts| && opts[i].Str?
    ensures OptionList(opts).value[i] == Obj(map["value" := opts[i]])
  {
  }

  // ---- one question ----

  /** `question.options || question.choices || []`, which must be an array to be mapped. */
  function ChoiceOptions(question: Value): Result<seq<Value>> {
    var options := Or(Or(OptionalGet(question, "options"), OptionalGet(question, "choices")), List([]));
    if !options.List? then Err("options.map is not a function")
    else OptionList(options.items)
  }

  /** The field the kind adds to `question`, with its value. */
  function KindField(k: Kind, question: Value): Result<(string, Value)> {
    match k
    case Radio => ChoiceField("RADIO", question)
    case Checkbox => ChoiceField("CHECKBOX", question)
    case DropDown => ChoiceField("DROP_DOWN", question)
    case Paragraph => Ok(("textQuestion", Obj(map["paragraph" := Bool(true)])))
    case Scale => Ok(("scaleQuestion", Obj(map[
        "low" := Or(OptionalGet(question, "low"), Num(1)),
        "high" := Or(OptionalGet(question, "high"), Num(5)),
        "lowLabel" := Or(OptionalGet(question, "lowLabel"), Str("")),
        "highLabel" := Or(OptionalGet(question, "highLabel"), Str(""))])))
    case Date => Ok(("dateQuestion", Obj(map["includeTime" := Bool(false), "includeYear" := Bool(true)])))
    case Time => Ok(("timeQuestion", Obj(map["duration" := Bool(false)])))
    case FileUpload => Ok(("fileUploadQuestion", Obj(map[
        "maxFileSize" := Or(OptionalGet(question, "maxFileSize"), Str("10MB")),
        "maxFiles" := Or(OptionalGet(question, "maxFiles"), Num(1))])))
    case ShortText => Ok(("textQuestion", Obj(map[])))
  }

  /** `choiceQuestion: { type, options }`. */
  function ChoiceField(choiceType: string, question: Value): Result<(string, Value)> {
    var options := ChoiceOptions(question);
    if options.Err? then Err(options.message)
    else Ok(("choiceQuestion", Obj(map["type" := Str(choiceType), "options" := List(options.value)])))
  }

  /** `question.type || question.questionType || 'text'`, lower-cased: `toLowerCase` of a non-string throws. */
  function TypeName(question: Value): Result<string> {
    var t := Or(Or(OptionalGet(question, "type"), OptionalGet(question, "questionType")), Str("text"));
    if t.Str? then Ok(Lower(t.s)) else Err("toLowerCase is not a function")
  }

  /** The `createItem` request, with the item at `location`. */
  function CreateItem(title: Value, fields: Doc, location: Value): Value {
    Obj(map["createItem" := Obj(map[
      "item" := Obj(map["title" := title, "questionItem" := Obj(map["question" := Obj(fields)])]),
      "location" := Obj(map["index" := location])])])
  }

  /**
   * `buildQuestionRequest(question, index)`: the title, `required`
   * (default false), the field of the question's kind, and the position,
   * which `question.index` overrides when it is given.
   */
  function QuestionRequest(question: Value, index: nat): Result<Value> {
    if question.Undefined? || question.Null? then Err("Cannot read properties of " + Display(question) + " (reading 'title')")
    else
      var title := Or(Or(OptionalGet(question, "title"), OptionalGet(question, "question")), Str(""));
      var required := Or(OptionalGet(question, "required"), Bool(false));
      var name := TypeName(question);
      if name.Err? then Err(name.message)
      else
        var field := KindField(KindOf(name.value), question);
        if field.Err? then Err(field.message)
        else
          var given := OptionalGet(question, "index");
          Ok(CreateItem(title, map["required" := required, field.value.0 := field.value.1],
                        if given != Undefined then given else Num(index)))
  }

  /** `buildQuestionRequest`, as the source builds the item and then adds the kind's field. */
  method BuildQuestionRequest(question: Value, index: nat) returns (r: Result<Value>)
    ensures r == QuestionRequest(question, index)
  {
    if question.Undefined? || question.Null? {
      return Err("Cannot read properties of " + Display(question) + " (reading 'title')");
    }
    var title := Or(Or(OptionalGet(question, "title"), OptionalGet(question, "question")), Str(""));
    var fields: Doc := map["required" := Or(OptionalGet(question, "required"), Bool(false))];
    var name := TypeName(question);
    if name.Err? {
      return Err(name.message);
    }
    var field := KindField(KindOf(name.value), question);
    if field.Err? {
      return Err(field.message);
    }
    fields := fields[field.value.0 := field.value.1];
    var given := OptionalGet(question, "index");
    var location := if given != Undefined then given else Num(index);
    r := Ok(CreateItem(title, fields, location));
  }

  /** The fields of the built question, and its position. */
  function QuestionFields(request: Value): Doc {
    var item := OptionalGet(OptionalGet(request, "createItem"), "item");
    var q := OptionalGet(OptionalGet(item, "questionItem"), "question");
    if q.Obj? then q.fields else map[]
  }

  /** The title of the built item. */
  function ItemTitle(request: Value): Value {
    OptionalGet(OptionalGet(OptionalGet(request, "createItem"), "item"), "title")
  }

  function Location(request: Value): Value {
    OptionalGet(OptionalGet(OptionalGet(request, "createItem"), "location"), "index")
  }

  /**
   * What the request says about a question that can be built: the position
   * is `question.index` when given and `index` otherwise; the title is
   * `question.title || question.question || ''`; `required` is the
   * question's, false by default; and the kind's field is the only other
   * field of the question.
   */
  lemma QuestionRequestShape(question: Value, index: nat)
    requires QuestionRequest(question, index).Ok?
    ensures var r := QuestionRequest(question, index).value;
            var given := OptionalGet(question, "index");
            var k := KindOf(TypeName(question).value);
            && TypeName(question).Ok? && KindField(k, question).Ok?
            && Location(r) == (if given != Undefined then given else Num(index))
            && "required" in QuestionFields(r)
            && QuestionFields(r)["required"] == (if Truthy(OptionalGet(question, "required")) then OptionalGet(question, "required") else Bool(false))
            && KindField(k, question).value.0 in QuestionFields(r)
            && QuestionFields(r)[KindField(k, question).value.0] == KindField(k, question).value.1
            && QuestionFields(r).Keys == {"required", KindField(k, question).value.0}
            && ItemTitle(r) == Or(Or(OptionalGet(question, "title"), OptionalGet(question, "question")), Str(""))
  {
    var k := KindOf(TypeName(question).value);
    assert KindField(k, question).value.0 != "required";
  }

  /** A choice question offers the options in the order and number given. */
  lemma ChoiceOptionsKept(question: Value, index: nat, choiceType: string)
    requires ChoiceField(choiceType, question).Ok?
    ensures var options := Or(Or(OptionalGet(question, "options"), OptionalGet(question, "choices")), List([]));
            var field := ChoiceField(choiceType, question).value;
            && options.List?
            && field.0 == "choiceQuestion"
            && field.1 == Obj(map["type" := Str(choiceType), "options" := List(OptionList(options.items).value)])
            && |OptionList(options.items).value| == |options.items|
  {
  }

  /** A scale question runs from 1 to 5 unless the question says otherwise. */
  lemma ScaleDefaults(question: Value)
    ensures var f := KindField(Scale, question).value.1;
            && OptionalGet(f, "low") == (if Truthy(OptionalGet(question, "low")) then OptionalGet(question, "low") else Num(1))
            && OptionalGet(f, "high") == (if Truthy(OptionalGet(question, "high")) then OptionalGet(question, "high") else Num(5))
  {
  }

  // ---- a batch of questions ----

  /** The outcome of building each question, at consecutive positions from `start`. */
  function Built(questions: seq<Value>, start: nat): (rs: seq<Result<Value>>)
    ensures |rs| == |questions|
    ensures forall i :: 0 <= i < |questions| ==> rs[i] == QuestionRequest(questions[i], start + i)
  {
    seq(|questions|, i requires 0 <= i < |questions| => QuestionRequest(questions[i], start + i))
  }

  /** The values of outcomes built in order; the first failure is the outcome of the whole. */
  function Collect(rs: seq<Result<Value>>): (r: Result<seq<Value>>)
    ensures r.Ok? <==> forall i :: 0 <= i < |rs| ==> rs[i].Ok?
    ensures r.Ok? ==> |r.value| == |rs| && forall i :: 0 <= i < |rs| ==> r.value[i] == rs[i].value
  {
    if rs == [] then Ok([])
    else if rs[0].Err? then Err(rs[0].message)
    else
      var tail := Collect(rs[1..]);
      if tail.Err? then
        assert exists i :: 1 <= i < |rs| && rs[i].Err? by {
          var j :| 0 <= j < |rs[1..]| && rs[1..][j].Err?;
          assert rs[j + 1] == rs[1..][j];
        }
        Err(tail.message)
      else
        var r := [rs[0].value] + tail.value;
        assert forall i :: 1 <= i < |rs| ==> r[i] == tail.value[i - 1] && rs[i] == rs[1..][i - 1];
        Ok(r)
  }

  /** `questions.map((q, i) => buildQuestionRequest(q, start + i))`: the first question that cannot be built throws. */
  function QuestionRequests(questions: seq<Value>, start: nat): (r: Result<seq<Value>>)
    ensures r.Ok? <==> forall i :: 0 <= i < |questions| ==> QuestionRequest(questions[i], start + i).Ok?
    ensures r.Ok? ==> |r.value| == |questions|
    ensures r.Ok? ==> forall i :: 0 <= i < |questions| ==> r.value[i] == QuestionRequest(questions[i], start + i).value
  {
    Collect(Built(questions, start))
  }

  /** What a Forms operation sends, if anything, and what it answers. */
  datatype Update = Update(batch: Option<seq<Value>>, reply: Value)

  /**
   * `addQuestionsToForm`: the questions go after the form's current items,
   * in one batch that is sent only when there is at least one question.
   */
  function AddQuestionsOutcome(formId: string, items: seq<Value>, questions: seq<Value>): Result<Update> {
    var requests := QuestionRequests(questions, |items|);
    if requests.Err? then Err(requests.message)
    else Ok(Update(if |requests.value| > 0 then Some(requests.value) else None,
                   Obj(map["success" := Bool(true), "formId" := Str(formId), "questionsAdded" := Num(|questions|)])))
  }

  /**
   * The questions of a batch take consecutive positions from the form's
   * item count, unless one names its own; the reply counts them, and no
   * batch is sent for none.
   */
  lemma QuestionsFollowItems(formId: string, items: seq<Value>, questions: seq<Value>)
    requires AddQuestionsOutcome(formId, items, questions).Ok?
    ensures var u := AddQuestionsOutcome(formId, items, questions).value;
            && OptionalGet(u.reply, "questionsAdded") == Num(|questions|)
            && (u.batch.None? <==> questions == [])
            && (u.batch.Some? ==> |u.batch.value| == |questions|)
            && (u.batch.Some? ==> forall i :: 0 <= i < |questions| && OptionalGet(questions[i], "index") == Undefined ==>
                                    Location(u.batch.value[i]) == Num(|items| + i))
  {
    var requests := QuestionRequests(questions, |items|).value;
    forall i | 0 <= i < |questions| && OptionalGet(questions[i], "index") == Undefined
      ensures Location(requests[i]) == Num(|items| + i)
    {
      QuestionRequestShape(questions[i], |items| + i);
    }
  }

  // ---- form info ----

  /** `{ updateFormInfo: { info: { name: v }, updateMask: name } }`. */
  function InfoRequest(name: string, v: Value): Value {
    Obj(map["updateFormInfo" := Obj(map["info" := Obj(map[name := v]), "updateMask" := Str(name)])])
  }

  /** The requests `updateForm` pushes: the title's, then the description's, each when truthy. */
  function InfoRequests(title: Value, description: Value): seq<Value> {
    (if Truthy(title) then [InfoRequest("title", title)] else [])
    + (if Truthy(description) then [InfoRequest("description", description)] else [])
  }

  /** `updateForm`: reading `title` of missing updates throws; the batch is sent only when not empty. */
  method UpdateForm(formId: string, updates: Value) returns (r: Result<Update>)
    ensures updates.Undefined? || updates.Null? <==> r.Err?
    ensures r.Ok? ==> var requests := InfoRequests(OptionalGet(updates, "title"), OptionalGet(updates, "description"));
                      r.value == Update(if |requests| > 0 then Some(requests) else None,
                                        Obj(map["success" := Bool(true), "formId" := Str(formId)]))
  {
    if updates.Undefined? || updates.Null? {
      return Err("Cannot read properties of " + Display(updates) + " (reading 'title')");
    }
    var requests: seq<Value> := [];
    var title := OptionalGet(updates, "title");
    if Truthy(title) {
      requests := requests + [InfoRequest("title", title)];
    }
    var description := OptionalGet(updates, "description");
    if Truthy(description) {
      requests := requests + [InfoRequest("description", description)];
    }
    assert requests == InfoRequests(title, description);
    var batch := if |requests| > 0 then Some(requests) else None;
    r := Ok(Update(batch, Obj(map["success" := Bool(true), "formId" := Str(formId)])));
  }

  /** The mask a form-info request names. */
  function MaskOf(request: Value): Value {
    OptionalGet(OptionalGet(request, "updateFormInfo"), "updateMask")
  }

  /**
   * One request per truthy value, the title's first; none when neither is
   * given.
   */
  lemma InfoRequestsOrder(title: Value, description: Value)
    ensures var rs := InfoRequests(title, description);
            && |rs| == (if Truthy(title) then 1 else 0) + (if Truthy(description) then 1 else 0)
            && (rs == [] <==> !Truthy(title) && !Truthy(description))
            && (Truthy(title) ==> MaskOf(rs[0]) == Str("title"))
            && (Truthy(description) ==> MaskOf(rs[|rs| - 1]) == Str("description"))
  {
  }

  // ---- one question's update ----

  /** `String.prototype.split(',')`, at the first comma each time. */
  function SplitComma(s: string): (parts: seq<string>)
    ensures |parts| >= 1
    decreases |s|
  {
    var i := FirstComma(s);
    if i == |s| then [s] else [s[..i]] + SplitComma(s[i + 1..])
  }

  /** The position of the first comma, or the length when there is none. */
  function FirstComma(s: string): (i: nat)
    ensures i <= |s| && (forall j :: 0 <= j < i ==> s[j] != ',') && (i < |s| ==> s[i] == ',')
  {
    if s == [] || s[0] == ',' then 0 else 1 + FirstComma(s[1..])
  }

  lemma FirstCommaAfter(p: string, rest: string)
    requires forall j :: 0 <= j < |p| ==> p[j] != ','
    ensures FirstComma(p + "," + rest) == |p|
  {
    var s := p + "," + rest;
    var i := FirstComma(s);
    assert s[|p|] == ',';
    assert forall j :: 0 <= j < |p| ==> s[j] == p[j];
  }

  /** Joining comma-free names with commas and splitting the mask again gives back the names. */
  lemma {:induction false} SplitJoin(parts: seq<string>)
    requires |parts| >= 1
    requires forall i, j :: 0 <= i < |parts| && 0 <= j < |parts[i]| ==> parts[i][j] != ','
    ensures SplitComma(JoinComma(parts)) == parts
  {
    if |parts| == 1 {
      assert FirstComma(parts[0]) == |parts[0]|;
    } else {
      var p, rest := parts[0], JoinComma(parts[1..]);
      assert JoinComma(parts) == p + "," + rest;
      SplitAtFirst(p, rest);
      assert forall i, j :: 0 <= i < |parts[1..]| && 0 <= j < |parts[1..][i]| ==> parts[1..][i][j] != ',' by {
        assert forall i :: 0 <= i < |parts[1..]| ==> parts[1..][i] == parts[i + 1];
      }
      SplitJoin(parts[1..]);
      assert parts == [p] + parts[1..];
    }
  }

  /** Splitting a comma-free name, a comma and the rest splits off the name. */
  lemma SplitAtFirst(p: string, rest: string)
    requires forall j :: 0 <= j < |p| ==> p[j] != ','
    ensures SplitComma(p + "," + rest) == [p] + SplitComma(rest)
  {
    var s := p + "," + rest;
    FirstCommaAfter(p, rest);
    assert s[..|p|] == p;
    assert s[|p| + 1..] == rest;
  }

  /** The fields `updateQuestion` puts in the mask, in its fixed order, each when its value is not `undefined`. */
  function MaskFields(updates: Value): seq<string> {
    (if OptionalGet(updates, "title") != Undefined then ["title"] else [])
    + (if OptionalGet(updates, "required") != Undefined then ["required"] else [])
    + (if OptionalGet(updates, "options") != Undefined || OptionalGet(updates, "choices") != Undefined
       then ["choiceQuestion.options"] else [])
  }

  /** `updates.options !== undefined || updates.choices !== undefined` */
  predicate OptionsGiven(updates: Value) {
    OptionalGet(updates, "options") != Undefined || OptionalGet(updates, "choices") != Undefined
  }

  /** `updates.options || updates.choices || []` */
  function GivenOptions(updates: Value): Value {
    Or(Or(OptionalGet(updates, "options"), OptionalGet(updates, "choices")), List([]))
  }

  /**
   * `updateQuestion` throws when `updates` is `undefined` or `null`, or when
   * options are given but are not an array (`options.map is not a
   * function`) or hold an option that cannot be read.
   */
  predicate QuestionUpdateFails(updates: Value) {
    || updates.Undefined? || updates.Null?
    || (OptionsGiven(updates) && (!GivenOptions(updates).List? || OptionList(GivenOptions(updates).items).Err?))
  }

  /** The `question` object of an `updateItem` request. */
  function ChangedQuestion(request: Value): Value {
    OptionalGet(OptionalGet(OptionalGet(OptionalGet(request, "updateItem"), "item"), "questionItem"), "question")
  }

  /** The `itemId` of an `updateItem` request. */
  function UpdatedItem(request: Value): Value {
    OptionalGet(OptionalGet(OptionalGet(request, "updateItem"), "item"), "itemId")
  }

  /** The `location.index` of an `updateItem` request. */
  function UpdatedIndex(request: Value): Value {
    OptionalGet(OptionalGet(OptionalGet(request, "updateItem"), "location"), "index")
  }

  /**
   * The one `updateItem` request `updateQuestion` sends: it targets the
   * question's item, carries each given field with the given value and
   * nothing else, the options mapped as the builder maps them, and the
   * given index or 0.
   */
  function QuestionUpdate(questionId: Value, updates: Value): (r: Value)
    requires !QuestionUpdateFails(updates)
    ensures UpdatedItem(r) == questionId
    ensures UpdatedIndex(r) == if OptionalGet(updates, "index") != Undefined then OptionalGet(updates, "index") else Num(0)
    ensures UpdateMask(r) == Str(JoinComma(MaskFields(updates)))
    ensures ChangedQuestion(r).Obj?
    ensures var q := ChangedQuestion(r).fields;
            && ("title" in q <==> OptionalGet(updates, "title") != Undefined)
            && ("title" in q ==> q["title"] == OptionalGet(updates, "title"))
            && ("required" in q <==> OptionalGet(updates, "required") != Undefined)
            && ("required" in q ==> q["required"] == OptionalGet(updates, "required"))
            && ("choiceQuestion" in q <==> OptionsGiven(updates))
            && ("choiceQuestion" in q ==> q["choiceQuestion"] == Obj(map["options" := List(OptionList(GivenOptions(updates).items).value)]))
            && q.Keys <= {"title", "required", "choiceQuestion"}
  {
    var title := OptionalGet(updates, "title");
    var required := OptionalGet(updates, "required");
    var change: Doc := map[];
    var change := if title != Undefined then change["title" := title] else change;
    var change := if required != Undefined then change["required" := required] else change;
    var change := if OptionsGiven(updates)
                  then change["choiceQuestion" := Obj(map["options" := List(OptionList(GivenOptions(updates).items).value)])]
                  else change;
    var given := OptionalGet(updates, "index");
    Obj(map["updateItem" := Obj(map[
      "item" := Obj(map["itemId" := questionId, "questionItem" := Obj(map["question" := Obj(change)])]),
      "location" := Obj(map["index" := if given != Undefined then given else Num(0)]),
      "updateMask" := Str(JoinComma(MaskFields(updates)))])])
  }

  /**
   * `updateQuestion`: collects the mask and the changed fields, answers
   * `No fields to update` without a request when there are none, and
   * otherwise sends one `updateItem` request whose mask joins the fields
   * with commas. Mapping the options throws as in the builder.
   */
  method UpdateQuestion(formId: string, questionId: Value, updates: Value) returns (r: Result<Update>)
    ensures r.Err? <==> QuestionUpdateFails(updates)
    ensures r.Ok? ==> (r.value.batch.None? <==> MaskFields(updates) == [])
    ensures r.Ok? && MaskFields(updates) == [] ==>
              r.value.reply == Obj(map["success" := Bool(false), "message" := Str("No fields to update")])
    ensures r.Ok? && MaskFields(updates) != [] ==>
              && r.value.batch == Some([QuestionUpdate(questionId, updates)])
              && UpdateMask(r.value.batch.value[0]) == Str(JoinComma(MaskFields(updates)))
              && r.value.reply == Obj(map["success" := Bool(true), "formId" := Str(formId), "questionId" := questionId])
  {
    if updates.Undefined? || updates.Null? {
      return Err("Cannot read properties of " + Display(updates) + " (reading 'title')");
    }
    var fields: seq<string> := [];
    var change: Doc := map[];
    if OptionalGet(updates, "title") != Undefined {
      fields := fields + ["title"];
      change := change["title" := OptionalGet(updates, "title")];
    }
    if OptionalGet(updates, "required") != Undefined {
      fields := fields + ["required"];
      change := change["required" := OptionalGet(updates, "required")];
    }
    if OptionalGet(updates, "options") != Undefined || OptionalGet(updates, "choices") != Undefined {
      fields := fields + ["choiceQuestion.options"];
      var options := GivenOptions(updates);
      if !options.List? {
        return Err("options.map is not a function");
      }
      var mapped := OptionList(options.items);
      if mapped.Err? {
        return Err(mapped.message);
      }
      change := change["choiceQuestion" := Obj(map["options" := List(mapped.value)])];
    }
    assert fields == MaskFields(updates);
    if |fields| == 0 {
      return Ok(Update(None, Obj(map["success" := Bool(false), "message" := Str("No fields to update")])));
    }
    var given := OptionalGet(updates, "index");
    var request := Obj(map["updateItem" := Obj(map[
      "item" := Obj(map["itemId" := questionId, "questionItem" := Obj(map["question" := Obj(change)])]),
      "location" := Obj(map["index" := if given != Undefined then given else Num(0)]),
      "updateMask" := Str(JoinComma(fields))])]);
    r := Ok(Update(Some([request]), Obj(map["success" := Bool(true), "formId" := Str(formId), "questionId" := questionId])));
  }

  /** The mask of an `updateItem` request. */
  function UpdateMask(request: Value): Value {
    OptionalGet(OptionalGet(request, "updateItem"), "updateMask")
  }

  /**
   * The mask names each changed field once, in the order title, required,
   * options.
   */
  lemma MaskNamesChanges(updates: Value)
    ensures var f := MaskFields(updates);
            && ("title" in f <==> OptionalGet(updates, "title") != Undefined)
            && ("required" in f <==> OptionalGet(updates, "required") != Undefined)
            && ("choiceQuestion.options" in f <==>
                  OptionalGet(updates, "options") != Undefined || OptionalGet(updates, "choices") != Undefined)
            && |f| <= 3
            && (|f| >= 2 && "title" in f ==> f[0] == "title")
  {
  }

  /**
   * The mask of the request `updateQuestion` sends names exactly the fields
   * its `question` object changes.
   */
  lemma MaskMatchesQuestion(questionId: Value, updates: Value)
    requires !QuestionUpdateFails(updates) && MaskFields(updates) != []
    ensures var request := QuestionUpdate(questionId, updates);
            var q := ChangedQuestion(request).fields;
            var mask := SplitComma(UpdateMask(request).s);
            && ("title" in mask <==> "title" in q)
            && ("required" in mask <==> "required" in q)
            && ("choiceQuestion.options" in mask <==> "choiceQuestion" in q)
  {
    MaskRoundTrip(updates);
    MaskNamesChanges(updates);
  }

  /** The mask of a question update can be split back into exactly the changed fields. */
  lemma MaskRoundTrip(updates: Value)
    requires MaskFields(updates) != []
    ensures SplitComma(JoinComma(MaskFields(updates))) == MaskFields(updates)
  {
    var f := MaskFields(updates);
    assert forall i :: 0 <= i < |f| ==> f[i] == "title" || f[i] == "required" || f[i] == "choiceQuestion.options";
    SplitJoin(f);
  }
}
