/** What an accepted question of src/system_one.rs holds, said of the document alone. */
module RequestContents {
  import opened Wrappers
  import opened Json
  import opened JsonMachine
  import opened RequestModel
  import opened RequestAcceptance

  // ---- Choice ----

  /** The texts of an array, each at its first place, without descriptions. */
  ghost predicate ListedOptions(options: seq<ChoiceOption>, texts: seq<string>) {
    && (forall i | 0 <= i < |options| :: options[i].description.None?)
    && (forall i, j | 0 <= i < j < |options| :: options[i].key != options[j].key)
    && (forall n | 0 <= n < |texts| :: IsOption(options, texts[n]))
    && (forall i | 0 <= i < |options| :: options[i].key in texts)
    && (forall i, j, m, n | 0 <= i < j < |options| && IsFirstText(texts, m, options[i].key) && IsFirstText(texts, n, options[j].key) ::
          m < n)
  }

  predicate IsOption(options: seq<ChoiceOption>, key: string) { exists i | 0 <= i < |options| :: options[i].key == key }

  predicate IsFirstText(texts: seq<string>, n: int, key: string) {
    0 <= n < |texts| && texts[n] == key && forall j | 0 <= j < n :: texts[j] != key
  }

  /** The description that a value in effect gives: none for null, its text for a text. */
  predicate DescribedBy(description: Option<string>, v: Raw) {
    (v == RNull && description == None) || (description.Some? && v == RString(Good(description.value)))
  }

  /** The keys of an object in the order of their first entries, each with what its last entry says. */
  ghost predicate DescribedOptions(options: seq<ChoiceOption>, raw: Raw) {
    && raw.RObject? && KeysDecode(raw.entries)
    && var keys := FirstKeys(Pairs(raw.entries));
       && |options| == |keys|
       && forall i | 0 <= i < |options| :: options[i].key == keys[i] && OptionInEffect(options[i], raw)
  }

  ghost predicate OptionInEffect(option: ChoiceOption, raw: Raw) {
    exists v :: InEffect(raw, option.key, v) && DescribedBy(option.description, v)
  }

  function AsPairs(keys: seq<string>): (ps: seq<Pair<()>>)
    ensures |ps| == |keys| && forall i | 0 <= i < |ps| :: ps[i].key == keys[i]
  {
    seq(|keys|, i requires 0 <= i < |keys| => Pair(keys[i], ()))
  }

  lemma DistinctLists(texts: seq<string>)
    ensures ListedOptions(Bare(Distinct(texts)), texts)
  {
    var ps, ks, options := AsPairs(texts), Distinct(texts), Bare(Distinct(texts));
    assert ks == FirstKeys(ps);
    forall n | 0 <= n < |texts| ensures IsOption(options, texts[n]) {
      assert ps[n].key == texts[n];
      assert texts[n] in ks;
      var i :| 0 <= i < |ks| && ks[i] == texts[n];
      assert options[i].key == texts[n];
    }
    forall i | 0 <= i < |options| ensures options[i].key in texts {
      assert ks[i] in ks;
      var n :| 0 <= n < |ps| && ps[n].key == ks[i];
      assert texts[n] == ks[i];
    }
    forall i, j, m, n | 0 <= i < j < |options| && IsFirstText(texts, m, options[i].key) && IsFirstText(texts, n, options[j].key)
      ensures m < n
    {
      assert IsFirst(ps, ks[i], m) && IsFirst(ps, ks[j], n);
      KeysInOrder(ps, i, j, m, n);
    }
  }

  ghost predicate ChoiceHolds(options: seq<ChoiceOption>, raw: Raw) {
    if raw.RArray? then IsTexts(raw) && ListedOptions(options, Texts(raw.items)) else DescribedOptions(options, raw)
  }

  lemma DescribedSays(entry: Pair<Raw>)
    requires Described(entry).Ok?
    ensures Described(entry).value.key == entry.key && DescribedBy(Described(entry).value.description, entry.value)
  {
  }

  lemma ChoiceContents(raw: Raw)
    requires Decodes(raw) && ChoiceOf(raw).Ok?
    ensures ChoiceHolds(ChoiceOf(raw).value, raw)
  {
    if raw.RArray? {
      TextsExactly(raw);
      DistinctLists(Texts(raw.items));
    } else {
      var entries := Collapse(Pairs(raw.entries));
      var rs, options := AllDescribed(entries), ChoiceOf(raw).value;
      GatheredAre(rs, |rs|);
      forall i | 0 <= i < |options| ensures options[i].key == entries[i].key && OptionInEffect(options[i], raw) {
        assert rs[i] == Ok(options[i]);
        DescribedSays(entries[i]);
        MemberInEffect(raw, CriteriaField, i);
      }
    }
  }

  // ---- Noul ----

  /** The text in effect under the key, unless it is empty or missing; then the script's own. */
  ghost predicate DescriptionHolds(description: string, raw: Option<Raw>, key: string, default: string) {
    && (forall s: string :: raw.Some? && InEffect(raw.value, key, RString(Good(s))) ==> description == if s == "" then default else s)
    && (raw.None? || (forall v :: !InEffect(raw.value, key, v)) ==> description == default)
  }

  ghost predicate NoulHolds(c: Criteria, raw: Option<Raw>) {
    && c.Noul?
    && DescriptionHolds(c.falseDescription, raw, "false", "no, the statement does not hold")
    && DescriptionHolds(c.trueDescription, raw, "true", "yes, the statement holds")
  }

  lemma DescriptionContents(raw: Raw, key: string, default: string)
    requires Decodes(raw) && raw.RObject?
    ensures ObjectOf(raw, CriteriaField).Ok?
    ensures var r := Description(ObjectOf(raw, CriteriaField).value, key, default);
            r.Ok? ==> DescriptionHolds(r.value, Some(raw), key, default)
  {
    FieldExactly(raw, CriteriaField, key);
    var found := FieldOf(ObjectOf(raw, CriteriaField).value, key);
    if found.Some? { assert InEffect(raw, key, found.value); }
  }

  lemma NoulContents(raw: Option<Raw>)
    requires (raw.Some? ==> Decodes(raw.value)) && NoulOf(raw).Ok?
    ensures NoulHolds(NoulOf(raw).value, raw)
  {
    if raw.Some? {
      DescriptionContents(raw.value, "false", "no, the statement does not hold");
      DescriptionContents(raw.value, "true", "yes, the statement holds");
    }
  }

  // ---- Questions ----

  /** What the criteria of type `kind` hold, given what is in effect under "criteria". */
  ghost predicate CriteriaHold(c: Criteria, kind: string, raw: Raw) {
    if kind == "noul" then
      || (exists v :: InEffect(raw, "criteria", v) && NoulHolds(c, Some(v)))
      || ((forall v :: !InEffect(raw, "criteria", v)) && NoulHolds(c, None))
    else if kind == "choice" then c.Choice? && exists v :: InEffect(raw, "criteria", v) && ChoiceHolds(c.options, v)
    else kind == "score" && c.Score? && exists v :: InEffect(raw, "criteria", v) && IsTexts(v) && c.levels == Texts(v.items)
  }

  /** The question holds its name, the instructions in effect, and criteria of the type in effect. */
  ghost predicate QuestionHolds(q: Question, name: string, raw: Raw) {
    && q.name == name
    && InEffect(raw, "instructions", q.instructions)
    && exists kind: string :: InEffect(raw, "type", RString(Good(kind))) && CriteriaHold(q.criteria, kind, raw)
  }

  lemma CriteriaContents(raw: Raw, kind: string)
    requires Decodes(raw) && raw.RObject? && (kind == "choice" || kind == "score" || kind == "noul")
    ensures ObjectOf(raw, QuestionField).Ok?
    ensures var r := CriteriaOf(kind, ObjectOf(raw, QuestionField).value); r.Ok? ==> CriteriaHold(r.value, kind, raw)
  {
    FieldExactly(raw, QuestionField, "criteria");
    var fields := ObjectOf(raw, QuestionField).value;
    var found := FieldOf(fields, "criteria");
    if found.Some? {
      assert InEffect(raw, "criteria", found.value);
      EffectDecodes(raw, "criteria", found.value);
      TextsExactly(found.value);
      if ChoiceOf(found.value).Ok? { ChoiceContents(found.value); }
    }
    if NoulOf(found).Ok? { NoulContents(found); }
  }

  /**
   What an accepted question holds: the instructions in effect; for Choice the texts of its
   array in first-occurrence order, or the keys of its object each with the description in
   effect; for Score its texts, all of them; for Noul the two texts in effect, or the fixed ones.
   */
  lemma QuestionContents(name: string, raw: Raw, limits: Limits)
    requires Decodes(raw) && ParseQuestion(name, raw, limits).Ok?
    ensures QuestionHolds(ParseQuestion(name, raw, limits).value, name, raw)
  {
    FieldExactly(raw, QuestionField, "type");
    FieldExactly(raw, QuestionField, "instructions");
    var fields := ObjectOf(raw, QuestionField).value;
    var kind := FieldOf(fields, "type").value;
    var instructions := FieldOf(fields, "instructions").value;
    assert InEffect(raw, "type", kind) && InEffect(raw, "instructions", instructions);
    CriteriaContents(raw, kind.text.chars);
  }

  /** Question i of the request, in the object under "questions". */
  ghost predicate HoldsQuestion(document: Raw, q: Question) {
    exists questions, v :: InEffect(document, "questions", questions) && InEffect(questions, q.name, v) && QuestionHolds(q, q.name, v)
  }

  /** So does every question of an accepted request. */
  lemma AcceptedContents(bodyBytes: nat, document: Raw, limits: Limits, i: nat)
    requires FromSlice(bodyBytes, Some(document), limits).Ok?
    requires i < |FromSlice(bodyBytes, Some(document), limits).value.questions|
    ensures HoldsQuestion(document, FromSlice(bodyBytes, Some(document), limits).value.questions[i])
  {
    AcceptedIsInEffect(bodyBytes, Some(document), limits);
    var r := FromSlice(bodyBytes, Some(document), limits).value;
    var questions :| InEffect(document, "questions", questions) && QuestionsOf(r.questions, questions, limits);
    var q := r.questions[i];
    assert Parsed(q, questions, limits);
    var v :| InEffect(questions, q.name, v) && ParseQuestion(q.name, v, limits) == Ok(q);
    EffectDecodes(document, "questions", questions);
    EffectDecodes(questions, q.name, v);
    QuestionContents(q.name, v, limits);
  }

  // ---- Refusals ----

  /** Which refusal: a body that is too long, then one that does not decode or is too deep, come before all others. */
  lemma RefusedExactly(bodyBytes: nat, document: Option<Raw>, limits: Limits)
    ensures FromSlice(bodyBytes, document, limits) == Err(PayloadTooLarge) <==> bodyBytes > limits.maxBodyBytes
    ensures bodyBytes <= limits.maxBodyBytes && (document.None? || !(Decodes(document.value) && Within(document.value, limits.maxJsonDepth)))
      ==> FromSlice(bodyBytes, document, limits) == Err(BadSyntax) || FromSlice(bodyBytes, document, limits) == Err(BadDepth)
    ensures FromSlice(bodyBytes, document, limits) == Err(BadDepth) ==> document.Some? && !Within(document.value, limits.maxJsonDepth)
  {
    if document.Some? {
      var raw := document.value;
      CheckDecides(raw, 0, limits.maxJsonDepth);
      if Decodes(raw) { NoOtherDepth(raw, limits); }
    }
  }

  lemma NoOtherDepth(raw: Raw, limits: Limits)
    requires Decodes(raw)
    ensures ObjectOf(raw, Root).Ok? ==> RequestIn(ObjectOf(raw, Root).value, limits) != Err(BadDepth)
    ensures ObjectOf(raw, Root).Ok? ==> RequestIn(ObjectOf(raw, Root).value, limits) != Err(PayloadTooLarge)
  {
    if ObjectOf(raw, Root).Ok? {
      var fields := ObjectOf(raw, Root).value;
      var found := FieldOf(fields, "questions");
      if found.Some? { QuestionsNameNeither(found.value, limits); }
    }
  }

  lemma QuestionsNameNeither(raw: Raw, limits: Limits)
    ensures QuestionsIn(raw, limits) != Err(BadDepth) && QuestionsIn(raw, limits) != Err(PayloadTooLarge)
  {
    var o := ObjectOf(raw, Questions);
    if o.Ok? && ParseQuestions(o.value, limits).Err? {
      var rs := EachQuestion(o.value, limits);
      GatheredFirst(rs, |rs|);
      var i :| 0 <= i < |rs| && FirstFailure(rs, i) && rs[i].error == Gathered(rs, |rs|).error;
      QuestionNamesNeither(o.value[i].key, o.value[i].value, limits);
    }
  }

  lemma QuestionNamesNeither(name: string, raw: Raw, limits: Limits)
    ensures ParseQuestion(name, raw, limits) != Err(BadDepth) && ParseQuestion(name, raw, limits) != Err(PayloadTooLarge)
  {
    var o := ObjectOf(raw, QuestionField);
    if o.Ok? {
      var found := FieldOf(o.value, "criteria");
      if found.Some? { CriteriaNameNeither(found.value); }
      NoulNamesNeither(found);
    }
  }

  lemma CriteriaNameNeither(raw: Raw)
    ensures ChoiceOf(raw) != Err(BadDepth) && ChoiceOf(raw) != Err(PayloadTooLarge)
    ensures StringsOf(raw) != Err(BadDepth) && StringsOf(raw) != Err(PayloadTooLarge)
  {
    var v := ViewOf(raw);
    if v.Ok? && v.value.Array? {
      var rs := seq(|v.value.items|, i requires 0 <= i < |v.value.items| => StringOf(v.value.items[i], CriteriaField));
      if Gathered(rs, |rs|).Err? { GatheredFirst(rs, |rs|); }
    } else if v.Ok? && v.value.Object? {
      var rs := AllDescribed(v.value.entries);
      if Gathered(rs, |rs|).Err? { GatheredFirst(rs, |rs|); }
    }
  }

  lemma NoulNamesNeither(raw: Option<Raw>)
    ensures NoulOf(raw) != Err(BadDepth) && NoulOf(raw) != Err(PayloadTooLarge)
  {
  }
}
