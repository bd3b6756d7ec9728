/** The input boundary of src/system_one.rs: from a raw document to a normalised request. */
module RequestModel {
  import opened Wrappers
  import Decimal
  import opened Json
  import opened JsonMachine

  datatype Limits = Limits(maxBodyBytes: nat, maxQuestions: nat, maxOptions: nat, maxJsonDepth: nat)

  datatype Field = Root | State | Questions | QuestionField | Type | Instructions | CriteriaField

  datatype RequestError =
    | PayloadTooLarge | BadSyntax | BadDepth
    | MissingField(field: Field) | InvalidField(field: Field)
    | UnsupportedQuestionType | QuestionCount | TooFewOptions | TooManyOptions

  datatype ChoiceOption = ChoiceOption(key: string, description: Option<string>)

  datatype Criteria =
    | Choice(options: seq<ChoiceOption>)
    | Score(levels: seq<string>)
    | Noul(falseDescription: string, trueDescription: string)

  datatype Question = Question(name: string, instructions: Raw, criteria: Criteria)

  datatype Request = Request(state: Raw, questions: seq<Question>)

  function Len(c: Criteria): nat {
    match c
    case Choice(options) => |options|
    case Score(levels) => |levels|
    case Noul(_, _) => 2
  }

  /** The largest number of options among the first n questions. */
  function MostOptions(questions: seq<Question>, n: nat): nat
    requires n <= |questions|
  {
    if n == 0 then 0 else
      var most, k := MostOptions(questions, n - 1), Len(questions[n - 1].criteria);
      if most >= k then most else k
  }

  // ---- Effective fields ----

  function ObjectOf(raw: Raw, field: Field): Result<seq<Pair<Raw>>, RequestError> {
    match ViewOf(raw)
    case Err(_) => Err(BadSyntax)
    case Ok(v) => if v.Object? then Ok(v.entries) else Err(InvalidField(field))
  }

  function FieldOf(fields: seq<Pair<Raw>>, key: string): Option<Raw> {
    if fields == [] then None
    else if fields[0].key == key then Some(fields[0].value)
    else FieldOf(fields[1..], key)
  }

  function Required(fields: seq<Pair<Raw>>, key: string, path: Field): Result<Raw, RequestError> {
    match FieldOf(fields, key)
    case Some(raw) => Ok(raw)
    case None => Err(MissingField(path))
  }

  function StringOf(raw: Raw, field: Field): Result<string, RequestError> {
    match ViewOf(raw)
    case Err(_) => Err(BadSyntax)
    case Ok(v) => if v.String? then Ok(v.chars) else Err(InvalidField(field))
  }

  function StringsOf(raw: Raw): Result<seq<string>, RequestError> {
    match ViewOf(raw)
    case Err(_) => Err(BadSyntax)
    case Ok(v) =>
      if v.Array? then
        Gathered(seq(|v.items|, i requires 0 <= i < |v.items| => StringOf(v.items[i], CriteriaField)), |v.items|)
      else Err(InvalidField(CriteriaField))
  }

  // ---- Criteria ----

  /** The keys in first-occurrence order, each once. */
  function Distinct(keys: seq<string>): seq<string> {
    FirstKeys(seq(|keys|, i requires 0 <= i < |keys| => Pair(keys[i], ())))
  }

  function Bare(keys: seq<string>): seq<ChoiceOption> {
    seq(|keys|, i requires 0 <= i < |keys| => ChoiceOption(keys[i], None))
  }

  function Described(entry: Pair<Raw>): Result<ChoiceOption, RequestError> {
    match ViewOf(entry.value)
    case Err(_) => Err(BadSyntax)
    case Ok(v) =>
      if v.Null? then Ok(ChoiceOption(entry.key, None))
      else if v.String? then Ok(ChoiceOption(entry.key, Some(v.chars)))
      else Err(InvalidField(CriteriaField))
  }

  function AllDescribed(entries: seq<Pair<Raw>>): (rs: seq<Result<ChoiceOption, RequestError>>)
    ensures |rs| == |entries|
  {
    seq(|entries|, i requires 0 <= i < |entries| => Described(entries[i]))
  }

  function ChoiceOf(raw: Raw): Result<seq<ChoiceOption>, RequestError> {
    match ViewOf(raw)
    case Err(_) => Err(BadSyntax)
    case Ok(v) =>
      match v
      case Array(_) =>
        (match StringsOf(raw)
         case Err(e) => Err(e)
         case Ok(keys) => Ok(Bare(Distinct(keys))))
      case Object(entries) => Gathered(AllDescribed(entries), |entries|)
      case _ => Err(InvalidField(CriteriaField))
  }

  function Description(fields: seq<Pair<Raw>>, key: string, default: string): Result<string, RequestError> {
    match FieldOf(fields, key)
    case None => Ok(default)
    case Some(raw) =>
      match StringOf(raw, CriteriaField)
      case Err(e) => Err(e)
      case Ok(s) => Ok(if s != "" then s else default)
  }

  function NoulOf(raw: Option<Raw>): Result<Criteria, RequestError> {
    var fields := if raw.Some? then ObjectOf(raw.value, CriteriaField) else Ok([]);
    match fields
    case Err(e) => Err(e)
    case Ok(fs) =>
      match Description(fs, "false", "no, the statement does not hold")
      case Err(e) => Err(e)
      case Ok(no) =>
        match Description(fs, "true", "yes, the statement holds")
        case Err(e) => Err(e)
        case Ok(yes) => Ok(Noul(no, yes))
  }

  function CriteriaOf(kind: string, fields: seq<Pair<Raw>>): Result<Criteria, RequestError> {
    if kind == "noul" then NoulOf(FieldOf(fields, "criteria"))
    else
      match Required(fields, "criteria", CriteriaField)
      case Err(e) => Err(e)
      case Ok(raw) =>
        if kind == "choice" then
          match ChoiceOf(raw)
          case Err(e) => Err(e)
          case Ok(options) => Ok(Choice(options))
        else
          match StringsOf(raw)
          case Err(e) => Err(e)
          case Ok(levels) => Ok(Score(levels))
  }

  // ---- Questions and requests ----

  /** `Question::parse` */
  function ParseQuestion(name: string, raw: Raw, limits: Limits): Result<Question, RequestError> {
    match ObjectOf(raw, QuestionField)
    case Err(e) => Err(e)
    case Ok(fields) =>
      match Required(fields, "type", Type)
      case Err(e) => Err(e)
      case Ok(kindRaw) =>
        match StringOf(kindRaw, Type)
        case Err(e) => Err(e)
        case Ok(kind) =>
          if kind != "choice" && kind != "score" && kind != "noul" then Err(UnsupportedQuestionType)
          else
            match Required(fields, "instructions", Instructions)
            case Err(e) => Err(e)
            case Ok(instructions) =>
              match CriteriaOf(kind, fields)
              case Err(e) => Err(e)
              case Ok(criteria) =>
                if Len(criteria) < 2 then Err(TooFewOptions)
                else if Len(criteria) > limits.maxOptions then Err(TooManyOptions)
                else Ok(Question(name, instructions, criteria))
  }

  function EachQuestion(entries: seq<Pair<Raw>>, limits: Limits): (rs: seq<Result<Question, RequestError>>)
    ensures |rs| == |entries|
  {
    seq(|entries|, i requires 0 <= i < |entries| => ParseQuestion(entries[i].key, entries[i].value, limits))
  }

  function ParseQuestions(entries: seq<Pair<Raw>>, limits: Limits): Result<seq<Question>, RequestError> {
    Gathered(EachQuestion(entries, limits), |entries|)
  }

  /** The questions of a request, at least one and not too many. */
  function QuestionsIn(raw: Raw, limits: Limits): Result<seq<Question>, RequestError> {
    match ObjectOf(raw, Questions)
    case Err(e) => Err(e)
    case Ok(entries) =>
      if entries == [] || |entries| > limits.maxQuestions then Err(QuestionCount) else ParseQuestions(entries, limits)
  }

  /** The request in the fields of the document. */
  function RequestIn(fields: seq<Pair<Raw>>, limits: Limits): Result<Request, RequestError> {
    match Required(fields, "state", State)
    case Err(e) => Err(e)
    case Ok(state) =>
      match Required(fields, "questions", Questions)
      case Err(e) => Err(e)
      case Ok(raw) =>
        match QuestionsIn(raw, limits)
        case Err(e) => Err(e)
        case Ok(qs) => Ok(Request(state, qs))
  }

  /** `Request::from_slice`; `document` is the parsed body, None if it is not UTF-8 JSON. */
  function FromSlice(bodyBytes: nat, document: Option<Raw>, limits: Limits): Result<Request, RequestError> {
    if bodyBytes > limits.maxBodyBytes then Err(PayloadTooLarge)
    else
      match document
      case None => Err(BadSyntax)
      case Some(raw) =>
        match Check(raw, 0, limits.maxJsonDepth)
        case Some(e) => Err(if e.JsonDepth? then BadDepth else BadSyntax)
        case None =>
          match ObjectOf(raw, Root)
          case Err(e) => Err(e)
          case Ok(fields) => RequestIn(fields, limits)
  }

  /** The filter of `choice`: a set remembers what was seen, in place. */
  method FilterSeen(keys: seq<string>) returns (kept: seq<string>)
    ensures kept == Distinct(keys)
  {
    ghost var all := seq(|keys|, i requires 0 <= i < |keys| => Pair(keys[i], ()));
    var seen: set<string> := {};
    kept := [];
    for i := 0 to |keys|
      invariant kept == FirstKeys(all[..i])
      invariant forall k :: k in seen <==> k in kept
    {
      assert all[..i + 1][..i] == all[..i] && all[..i + 1][i] == all[i];
      if keys[i] !in seen {
        seen := seen + {keys[i]};
        kept := kept + [keys[i]];
      }
    }
    assert all[..|keys|] == all;
  }

  // ---- What an accepted request satisfies ----

  predicate UniqueKeys(options: seq<ChoiceOption>) {
    forall i, j | 0 <= i < j < |options| :: options[i].key != options[j].key
  }

  predicate QuestionOk(q: Question, limits: Limits) {
    && 2 <= Len(q.criteria) <= limits.maxOptions
    && (q.criteria.Choice? ==> UniqueKeys(q.criteria.options))
    && (q.criteria.Noul? ==> q.criteria.falseDescription != "" && q.criteria.trueDescription != "")
    && Decodes(q.instructions)
  }

  predicate RequestOk(r: Request, limits: Limits) {
    && 1 <= |r.questions| <= limits.maxQuestions
    && (forall i, j | 0 <= i < j < |r.questions| :: r.questions[i].name != r.questions[j].name)
    && (forall i | 0 <= i < |r.questions| :: QuestionOk(r.questions[i], limits))
    && Decodes(r.state)
  }

  predicate AllDecode(ps: seq<Pair<Raw>>) {
    forall i | 0 <= i < |ps| :: Decodes(ps[i].value)
  }

  predicate UniquePairs(ps: seq<Pair<Raw>>) {
    forall i, j | 0 <= i < j < |ps| :: ps[i].key != ps[j].key
  }

  /** The fields of a document that decodes are unique, and decode. */
  lemma FieldsDecode(raw: Raw, field: Field)
    requires Decodes(raw) && ObjectOf(raw, field).Ok?
    ensures var fs := ObjectOf(raw, field).value; AllDecode(fs) && UniquePairs(fs)
  {
    var ps := Pairs(raw.entries);
    CollapseMeans(ps);
    var c := Collapse(ps);
    forall a | 0 <= a < |c| ensures Decodes(c[a].value) {
      assert HasLast(ps, c[a]);
      var i :| 0 <= i < |ps| && IsLast(ps, c[a].key, i) && c[a].value == ps[i].value;
      assert Decodes(raw.entries[i].value);
    }
  }

  lemma {:induction false} FieldDecodes(fields: seq<Pair<Raw>>, key: string)
    requires AllDecode(fields) && FieldOf(fields, key).Some?
    ensures Decodes(FieldOf(fields, key).value)
  {
    if fields[0].key == key {
    } else {
      FieldDecodes(fields[1..], key);
    }
  }

  lemma DescribedKey(entry: Pair<Raw>)
    requires Described(entry).Ok?
    ensures Described(entry).value.key == entry.key
  {
  }

  lemma DescribedUnique(entries: seq<Pair<Raw>>, options: seq<ChoiceOption>)
    requires UniquePairs(entries) && |options| == |entries|
    requires forall i | 0 <= i < |options| :: Described(entries[i]) == Ok(options[i])
    ensures UniqueKeys(options)
  {
    forall i, j | 0 <= i < j < |options| ensures options[i].key != options[j].key {
      DescribedKey(entries[i]);
      DescribedKey(entries[j]);
    }
  }

  lemma ChoiceKeysUnique(raw: Raw)
    requires ChoiceOf(raw).Ok?
    ensures UniqueKeys(ChoiceOf(raw).value)
  {
    var v := ViewOf(raw).value;
    if v.Object? {
      CollapseMeans(Pairs(raw.entries));
      var rs, options := AllDescribed(v.entries), ChoiceOf(raw).value;
      GatheredAre(rs, |rs|);
      forall i | 0 <= i < |options| ensures Described(v.entries[i]) == Ok(options[i]) { assert rs[i] == Ok(options[i]); }
      DescribedUnique(v.entries, options);
    }
  }

  lemma ParsedQuestionOk(name: string, raw: Raw, limits: Limits)
    requires Decodes(raw) && ParseQuestion(name, raw, limits).Ok?
    ensures QuestionOk(ParseQuestion(name, raw, limits).value, limits)
    ensures ParseQuestion(name, raw, limits).value.name == name
  {
    FieldsDecode(raw, QuestionField);
    var fields := ObjectOf(raw, QuestionField).value;
    FieldDecodes(fields, "instructions");
    var q := ParseQuestion(name, raw, limits).value;
    if q.criteria.Choice? { ChoiceKeysUnique(Required(fields, "criteria", CriteriaField).value); }
  }

  lemma ParsedQuestionsOk(entries: seq<Pair<Raw>>, limits: Limits)
    requires AllDecode(entries) && ParseQuestions(entries, limits).Ok?
    ensures var qs := ParseQuestions(entries, limits).value;
            && |qs| == |entries|
            && forall k | 0 <= k < |qs| :: qs[k].name == entries[k].key && QuestionOk(qs[k], limits)
  {
    GatheredAre(EachQuestion(entries, limits), |entries|);
    var qs := ParseQuestions(entries, limits).value;
    forall k | 0 <= k < |qs| ensures qs[k].name == entries[k].key && QuestionOk(qs[k], limits) {
      assert EachQuestion(entries, limits)[k] == Ok(qs[k]);
      ParsedQuestionOk(entries[k].key, entries[k].value, limits);
    }
  }

  /** The document's field `key` has the value v: v stands last under that key. */
  ghost predicate InEffect(raw: Raw, key: string, v: Raw) {
    && raw.RObject?
    && exists i :: 0 <= i < |raw.entries| && LastUnder(raw.entries, key, i) && raw.entries[i].value == v
  }

  lemma {:induction false} FieldIsSome(fields: seq<Pair<Raw>>, key: string)
    requires FieldOf(fields, key).Some?
    ensures exists i :: 0 <= i < |fields| && fields[i] == Pair(key, FieldOf(fields, key).value)
  {
    if fields[0].key == key {
      assert fields[0] == Pair(key, FieldOf(fields, key).value);
    } else {
      FieldIsSome(fields[1..], key);
      var i :| 0 <= i < |fields| - 1 && fields[1..][i] == Pair(key, FieldOf(fields, key).value);
      assert fields[i + 1] == Pair(key, FieldOf(fields, key).value);
    }
  }

  /** Every member of an object's view is in effect in the document. */
  lemma MemberInEffect(raw: Raw, field: Field, a: nat)
    requires ObjectOf(raw, field).Ok? && a < |ObjectOf(raw, field).value|
    ensures var p := ObjectOf(raw, field).value[a]; InEffect(raw, p.key, p.value)
  {
    var ps := Pairs(raw.entries);
    CollapseMeans(ps);
    var p := Collapse(ps)[a];
    assert HasLast(ps, p);
    var i :| 0 <= i < |ps| && IsLast(ps, p.key, i) && p.value == ps[i].value;
    LastPair(raw.entries, p.key, i);
  }

  lemma FieldInEffect(raw: Raw, field: Field, key: string)
    requires ObjectOf(raw, field).Ok? && FieldOf(ObjectOf(raw, field).value, key).Some?
    ensures InEffect(raw, key, FieldOf(ObjectOf(raw, field).value, key).value)
  {
    var fields := ObjectOf(raw, field).value;
    FieldIsSome(fields, key);
    var i :| 0 <= i < |fields| && fields[i] == Pair(key, FieldOf(fields, key).value);
    MemberInEffect(raw, field, i);
  }

  /** q was parsed from the value in effect under its own name. */
  ghost predicate Parsed(q: Question, raw: Raw, limits: Limits) {
    exists v :: InEffect(raw, q.name, v) && ParseQuestion(q.name, v, limits) == Ok(q)
  }

  /** qs are the members in effect of the object `raw`, in the order in which their names first occur. */
  ghost predicate QuestionsOf(qs: seq<Question>, raw: Raw, limits: Limits) {
    && raw.RObject? && KeysDecode(raw.entries)
    && var names := FirstKeys(Pairs(raw.entries));
       && |qs| == |names|
       && forall i | 0 <= i < |qs| :: qs[i].name == names[i] && Parsed(qs[i], raw, limits)
  }

  lemma QuestionsAreMembers(raw: Raw, limits: Limits)
    requires Decodes(raw) && ObjectOf(raw, Questions).Ok?
    requires ParseQuestions(ObjectOf(raw, Questions).value, limits).Ok?
    ensures QuestionsOf(ParseQuestions(ObjectOf(raw, Questions).value, limits).value, raw, limits)
  {
    var entries := ObjectOf(raw, Questions).value;
    var qs := ParseQuestions(entries, limits).value;
    FieldsDecode(raw, Questions);
    ParsedQuestionsOk(entries, limits);
    forall i | 0 <= i < |qs| ensures Parsed(qs[i], raw, limits) {
      MemberInEffect(raw, Questions, i);
      GatheredAre(EachQuestion(entries, limits), |entries|);
      assert EachQuestion(entries, limits)[i] == Ok(qs[i]);
    }
  }

  ghost predicate HasQuestions(document: Raw, qs: seq<Question>, limits: Limits) {
    exists raw :: InEffect(document, "questions", raw) && QuestionsOf(qs, raw, limits)
  }

  /**
   An accepted request says what the document has in effect: its state is the last value of
   "state", and its questions are the members of the last value of "questions", each name
   once, in the order in which the names first occur, each with its last value.
   */
  lemma AcceptedIsInEffect(bodyBytes: nat, document: Option<Raw>, limits: Limits)
    requires FromSlice(bodyBytes, document, limits).Ok?
    ensures var r := FromSlice(bodyBytes, document, limits).value;
            && bodyBytes <= limits.maxBodyBytes
            && document.Some? && Decodes(document.value) && Within(document.value, limits.maxJsonDepth)
            && InEffect(document.value, "state", r.state)
            && HasQuestions(document.value, r.questions, limits)
  {
    var raw := document.value;
    CheckDecides(raw, 0, limits.maxJsonDepth);
    FieldsDecode(raw, Root);
    FieldInEffect(raw, Root, "state");
    FieldInEffect(raw, Root, "questions");
    var fields := ObjectOf(raw, Root).value;
    FieldDecodes(fields, "questions");
    QuestionsAreMembers(FieldOf(fields, "questions").value, limits);
  }

  /**
   Every accepted request is normalised: between one and `maxQuestions` questions with
   distinct names; between 2 and `maxOptions` options each, counted after folding; distinct
   Choice keys; and a state and instructions that `render` never refuses.
   */
  lemma AcceptedIsNormalised(bodyBytes: nat, document: Option<Raw>, limits: Limits)
    requires FromSlice(bodyBytes, document, limits).Ok?
    ensures RequestOk(FromSlice(bodyBytes, document, limits).value, limits)
  {
    var raw := document.value;
    CheckDecides(raw, 0, limits.maxJsonDepth);
    FieldsDecode(raw, Root);
    var fields := ObjectOf(raw, Root).value;
    FieldDecodes(fields, "state");
    FieldDecodes(fields, "questions");
    var questionsRaw := FieldOf(fields, "questions").value;
    FieldsDecode(questionsRaw, Questions);
    ParsedQuestionsOk(ObjectOf(questionsRaw, Questions).value, limits);
  }

  /** The texts of an accepted request can always be rendered. */
  lemma AcceptedRenders(bodyBytes: nat, document: Option<Raw>, limits: Limits, i: nat)
    requires FromSlice(bodyBytes, document, limits).Ok?
    requires i < |FromSlice(bodyBytes, document, limits).value.questions|
    ensures var r := FromSlice(bodyBytes, document, limits).value;
            && (WellFormed(r.state) ==> Rendered(r.state, false).Ok?)
            && (WellFormed(r.questions[i].instructions) ==> Rendered(r.questions[i].instructions, true).Ok?)
  {
    AcceptedIsNormalised(bodyBytes, document, limits);
    var r := FromSlice(bodyBytes, document, limits).value;
    assert QuestionOk(r.questions[i], limits);
    if WellFormed(r.state) { DecodedIsEffective(r.state); }
    if WellFormed(r.questions[i].instructions) { DecodedIsEffective(r.questions[i].instructions); }
  }
}
