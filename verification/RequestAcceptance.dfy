/** Exactly which documents src/system_one.rs accepts, said of the document alone. */
module RequestAcceptance {
  import opened Wrappers
  import opened Json
  import opened JsonMachine
  import opened RequestModel

  // ---- What is in effect ----

  lemma {:induction false} FieldFinds(fields: seq<Pair<Raw>>, a: nat)
    requires a < |fields| && UniquePairs(fields)
    ensures FieldOf(fields, fields[a].key) == Some(fields[a].value)
  {
    if a == 0 {
    } else {
      assert fields[1..][a - 1] == fields[a];
      FieldFinds(fields[1..], a - 1);
    }
  }

  /** What is in effect under a key is unique. */
  lemma OneInEffect(raw: Raw, key: string, v: Raw, w: Raw)
    requires InEffect(raw, key, v) && InEffect(raw, key, w)
    ensures v == w
  {
    var i :| 0 <= i < |raw.entries| && LastUnder(raw.entries, key, i) && raw.entries[i].value == v;
    var j :| 0 <= j < |raw.entries| && LastUnder(raw.entries, key, j) && raw.entries[j].value == w;
    assert i == j;
  }

  lemma EffectIsField(raw: Raw, field: Field, key: string, v: Raw)
    requires Decodes(raw) && InEffect(raw, key, v)
    ensures ObjectOf(raw, field).Ok? && FieldOf(ObjectOf(raw, field).value, key) == Some(v)
  {
    var i :| 0 <= i < |raw.entries| && LastUnder(raw.entries, key, i) && raw.entries[i].value == v;
    var ps := Pairs(raw.entries);
    assert ps[i].key == key;
    CollapseMeans(ps);
    FieldsDecode(raw, field);
    var fields := ObjectOf(raw, field).value;
    var a :| 0 <= a < |fields| && fields[a].key == key;
    MemberInEffect(raw, field, a);
    OneInEffect(raw, key, v, fields[a].value);
    FieldFinds(fields, a);
  }

  lemma EffectDecodes(raw: Raw, key: string, v: Raw)
    requires Decodes(raw) && InEffect(raw, key, v)
    ensures Decodes(v)
  {
  }

  // ---- Exactly which values are questions ----

  /** What `field` finds is what is in effect. */
  lemma FieldExactly(raw: Raw, field: Field, key: string)
    requires Decodes(raw) && raw.RObject?
    ensures ObjectOf(raw, field).Ok?
    ensures forall v :: FieldOf(ObjectOf(raw, field).value, key) == Some(v) <==> InEffect(raw, key, v)
  {
    var found := FieldOf(ObjectOf(raw, field).value, key);
    if found.Some? { FieldInEffect(raw, field, key); }
    forall v | InEffect(raw, key, v) ensures found == Some(v) { EffectIsField(raw, field, key, v); }
  }

  predicate IsText(raw: Raw) { raw.RString? && raw.text.Good? }

  predicate IsTexts(raw: Raw) { raw.RArray? && forall i | 0 <= i < |raw.items| :: IsText(raw.items[i]) }

  function Texts(items: seq<Raw>): seq<string>
    requires forall i | 0 <= i < |items| :: IsText(items[i])
  {
    seq(|items|, i requires 0 <= i < |items| => assert IsText(items[i]); items[i].text.chars)
  }

  predicate Fits(n: nat, limits: Limits) { 2 <= n <= limits.maxOptions }

  /** A description in effect: null or a text. */
  ghost predicate IsDescribed(raw: Raw, key: string) {
    exists v :: InEffect(raw, key, v) && (v.RNull? || IsText(v))
  }

  /** Texts, of which enough differ, or keys that are described by null or a text. */
  ghost predicate ChoiceShape(raw: Raw, limits: Limits) {
    || (IsTexts(raw) && Fits(|Distinct(Texts(raw.items))|, limits))
    || (raw.RObject? && KeysDecode(raw.entries)
        && var keys := FirstKeys(Pairs(raw.entries));
           Fits(|keys|, limits) && forall i | 0 <= i < |keys| :: IsDescribed(raw, keys[i]))
  }

  /** Texts, repeated ones included. */
  predicate ScoreShape(raw: Raw, limits: Limits) { IsTexts(raw) && Fits(|raw.items|, limits) }

  /** An object in which "false" and "true", where they occur, are texts. */
  ghost predicate NoulShape(raw: Raw) {
    && raw.RObject?
    && (forall v :: InEffect(raw, "false", v) ==> IsText(v))
    && (forall v :: InEffect(raw, "true", v) ==> IsText(v))
  }

  ghost predicate CriteriaFit(raw: Raw, kind: string, limits: Limits) {
    || (kind == "choice" && exists v :: InEffect(raw, "criteria", v) && ChoiceShape(v, limits))
    || (kind == "score" && exists v :: InEffect(raw, "criteria", v) && ScoreShape(v, limits))
    || (kind == "noul" && Fits(2, limits) && forall v :: InEffect(raw, "criteria", v) ==> NoulShape(v))
  }

  /** An object with a known type, instructions of any kind, and criteria that fit the type and the limits. */
  ghost predicate WellPosed(raw: Raw, limits: Limits) {
    && raw.RObject?
    && (exists v :: InEffect(raw, "instructions", v))
    && exists kind: string :: InEffect(raw, "type", RString(Good(kind))) && CriteriaFit(raw, kind, limits)
  }

  lemma TextsExactly(raw: Raw)
    requires Decodes(raw)
    ensures StringsOf(raw).Ok? <==> IsTexts(raw)
    ensures IsTexts(raw) ==> StringsOf(raw) == Ok(Texts(raw.items))
  {
    if raw.RArray? {
      var rs := seq(|raw.items|, i requires 0 <= i < |raw.items| => StringOf(raw.items[i], CriteriaField));
      GatheredAre(rs, |rs|);
      forall i | 0 <= i < |rs| ensures rs[i].Ok? <==> IsText(raw.items[i]) { assert Decodes(raw.items[i]); }
      if IsTexts(raw) {
        forall i | 0 <= i < |rs| ensures rs[i].Ok? { assert IsText(raw.items[i]); }
        assert Gathered(rs, |rs|).value == Texts(raw.items);
      } else {
        var i :| 0 <= i < |rs| && !IsText(raw.items[i]);
        assert !rs[i].Ok?;
      }
    }
  }

  /** A member of an object is well described exactly if it can be described. */
  lemma DescribedExactly(raw: Raw, a: nat)
    requires Decodes(raw) && raw.RObject? && a < |Collapse(Pairs(raw.entries))|
    ensures var entry := Collapse(Pairs(raw.entries))[a];
            Described(entry).Ok? <==> IsDescribed(raw, entry.key)
  {
    var entry := Collapse(Pairs(raw.entries))[a];
    MemberInEffect(raw, CriteriaField, a);
    EffectDecodes(raw, entry.key, entry.value);
    if IsDescribed(raw, entry.key) {
      var v :| InEffect(raw, entry.key, v) && (v.RNull? || IsText(v));
      OneInEffect(raw, entry.key, v, entry.value);
    }
  }

  lemma ChoiceExactly(raw: Raw, limits: Limits)
    requires Decodes(raw)
    ensures ChoiceOf(raw).Ok? && Fits(|ChoiceOf(raw).value|, limits) <==> ChoiceShape(raw, limits)
  {
    if raw.RArray? {
      TextsExactly(raw);
    } else if raw.RObject? {
      var entries, keys := Collapse(Pairs(raw.entries)), FirstKeys(Pairs(raw.entries));
      var rs := AllDescribed(entries);
      GatheredAre(rs, |rs|);
      forall i | 0 <= i < |rs| ensures rs[i].Ok? <==> IsDescribed(raw, keys[i]) {
        assert entries[i].key == keys[i];
        DescribedExactly(raw, i);
      }
    }
  }

  lemma DescriptionExactly(raw: Raw, key: string, default: string)
    requires Decodes(raw) && raw.RObject?
    ensures ObjectOf(raw, CriteriaField).Ok?
    ensures Description(ObjectOf(raw, CriteriaField).value, key, default).Ok? <==> forall v :: InEffect(raw, key, v) ==> IsText(v)
  {
    FieldExactly(raw, CriteriaField, key);
    var found := FieldOf(ObjectOf(raw, CriteriaField).value, key);
    if found.Some? {
      EffectDecodes(raw, key, found.value);
      assert InEffect(raw, key, found.value);
    }
  }

  lemma NoulExactly(raw: Option<Raw>)
    requires raw.Some? ==> Decodes(raw.value)
    ensures NoulOf(raw).Ok? <==> raw.None? || NoulShape(raw.value)
  {
    if raw.Some? && raw.value.RObject? {
      DescriptionExactly(raw.value, "false", "no, the statement does not hold");
      DescriptionExactly(raw.value, "true", "yes, the statement holds");
    }
  }

  lemma CriteriaExactly(raw: Raw, kind: string, limits: Limits)
    requires Decodes(raw) && raw.RObject? && (kind == "choice" || kind == "score" || kind == "noul")
    ensures ObjectOf(raw, QuestionField).Ok?
    ensures var r := CriteriaOf(kind, ObjectOf(raw, QuestionField).value);
            r.Ok? && Fits(Len(r.value), limits) <==> CriteriaFit(raw, kind, limits)
  {
    FieldExactly(raw, QuestionField, "criteria");
    var found := FieldOf(ObjectOf(raw, QuestionField).value, "criteria");
    if found.Some? {
      assert InEffect(raw, "criteria", found.value);
      EffectDecodes(raw, "criteria", found.value);
      ChoiceExactly(found.value, limits);
      TextsExactly(found.value);
    }
    NoulExactly(found);
  }

  /** A value parses as a question if and only if it is a well-posed one. */
  lemma QuestionParsesExactly(name: string, raw: Raw, limits: Limits)
    requires Decodes(raw)
    ensures ParseQuestion(name, raw, limits).Ok? <==> WellPosed(raw, limits)
  {
    if raw.RObject? {
      FieldExactly(raw, QuestionField, "type");
      FieldExactly(raw, QuestionField, "instructions");
      var fields := ObjectOf(raw, QuestionField).value;
      var kind := FieldOf(fields, "type");
      if kind.Some? {
        assert InEffect(raw, "type", kind.value);
        EffectDecodes(raw, "type", kind.value);
        if IsText(kind.value) { KindExactly(name, raw, kind.value.text.chars, limits); }
      }
    }
  }

  lemma KindExactly(name: string, raw: Raw, kind: string, limits: Limits)
    requires Decodes(raw) && raw.RObject? && InEffect(raw, "type", RString(Good(kind)))
    ensures ParseQuestion(name, raw, limits).Ok? <==> WellPosed(raw, limits)
  {
    FieldExactly(raw, QuestionField, "type");
    FieldExactly(raw, QuestionField, "instructions");
    var instructions := FieldOf(ObjectOf(raw, QuestionField).value, "instructions");
    assert instructions.Some? ==> InEffect(raw, "instructions", instructions.value);
    if kind == "choice" || kind == "score" || kind == "noul" { CriteriaExactly(raw, kind, limits); }
    forall other: string | InEffect(raw, "type", RString(Good(other))) ensures other == kind {
      OneInEffect(raw, "type", RString(Good(other)), RString(Good(kind)));
    }
  }

  // ---- Exactly which requests are accepted ----

  /** The object has a question under this name, and it is well posed. */
  ghost predicate AsksWell(raw: Raw, name: string, limits: Limits) {
    exists v :: InEffect(raw, name, v) && WellPosed(v, limits)
  }

  ghost predicate AskedWell(raw: Raw, limits: Limits) {
    && raw.RObject? && KeysDecode(raw.entries)
    && var names := FirstKeys(Pairs(raw.entries));
       1 <= |names| <= limits.maxQuestions && forall i | 0 <= i < |names| :: AsksWell(raw, names[i], limits)
  }

  /** Within the limits, with a state, and with questions that are all well posed. */
  ghost predicate Acceptable(document: Raw, limits: Limits) {
    && Decodes(document) && Within(document, limits.maxJsonDepth)
    && (exists state :: InEffect(document, "state", state))
    && exists raw :: InEffect(document, "questions", raw) && AskedWell(raw, limits)
  }

  lemma QuestionsParse(raw: Raw, limits: Limits)
    requires Decodes(raw) && AskedWell(raw, limits)
    ensures QuestionsIn(raw, limits).Ok?
  {
    var entries := ObjectOf(raw, Questions).value;
    var names := FirstKeys(Pairs(raw.entries));
    var rs := EachQuestion(entries, limits);
    forall i | 0 <= i < |rs| ensures rs[i].Ok? {
      assert entries[i].key == names[i];
      assert AsksWell(raw, names[i], limits);
      var v :| InEffect(raw, names[i], v) && WellPosed(v, limits);
      EffectDecodes(raw, names[i], v);
      QuestionParsesExactly(names[i], v, limits);
      MemberInEffect(raw, Questions, i);
      OneInEffect(raw, names[i], v, entries[i].value);
    }
    GatheredAre(rs, |rs|);
  }

  lemma RequestParses(fields: seq<Pair<Raw>>, raw: Raw, limits: Limits)
    requires FieldOf(fields, "state").Some? && FieldOf(fields, "questions") == Some(raw) && QuestionsIn(raw, limits).Ok?
    ensures RequestIn(fields, limits).Ok?
  {
  }

  /** The state and the questions in effect are found among the fields. */
  lemma AcceptableParses(document: Raw, limits: Limits)
    requires Acceptable(document, limits)
    ensures ObjectOf(document, Root).Ok? && RequestIn(ObjectOf(document, Root).value, limits).Ok?
  {
    var state :| InEffect(document, "state", state);
    var raw :| InEffect(document, "questions", raw) && AskedWell(raw, limits);
    EffectIsField(document, Root, "state", state);
    EffectIsField(document, Root, "questions", raw);
    EffectDecodes(document, "questions", raw);
    QuestionsParse(raw, limits);
    RequestParses(ObjectOf(document, Root).value, raw, limits);
  }

  lemma AcceptsAcceptable(bodyBytes: nat, document: Raw, limits: Limits)
    requires bodyBytes <= limits.maxBodyBytes && Acceptable(document, limits)
    ensures FromSlice(bodyBytes, Some(document), limits).Ok?
  {
    AcceptableParses(document, limits);
    AcceptableChecks(document, limits);
    SliceParses(bodyBytes, document, limits);
  }

  lemma AcceptableChecks(document: Raw, limits: Limits)
    requires Acceptable(document, limits)
    ensures Check(document, 0, limits.maxJsonDepth).None?
  {
    CheckDecides(document, 0, limits.maxJsonDepth);
  }

  lemma SliceParses(bodyBytes: nat, document: Raw, limits: Limits)
    requires bodyBytes <= limits.maxBodyBytes && Check(document, 0, limits.maxJsonDepth).None?
    requires ObjectOf(document, Root).Ok? && RequestIn(ObjectOf(document, Root).value, limits).Ok?
    ensures FromSlice(bodyBytes, Some(document), limits).Ok?
  {
  }

  lemma AcceptedIsAcceptable(bodyBytes: nat, document: Raw, limits: Limits)
    requires FromSlice(bodyBytes, Some(document), limits).Ok?
    ensures Acceptable(document, limits)
  {
    AcceptedIsInEffect(bodyBytes, Some(document), limits);
    AcceptedIsNormalised(bodyBytes, Some(document), limits);
    var r := FromSlice(bodyBytes, Some(document), limits).value;
    var raw :| InEffect(document, "questions", raw) && QuestionsOf(r.questions, raw, limits);
    var names := FirstKeys(Pairs(raw.entries));
    forall i | 0 <= i < |names| ensures AsksWell(raw, names[i], limits) {
      assert Parsed(r.questions[i], raw, limits);
      var v :| InEffect(raw, names[i], v) && ParseQuestion(names[i], v, limits) == Ok(r.questions[i]);
      EffectDecodes(document, "questions", raw);
      EffectDecodes(raw, names[i], v);
      QuestionParsesExactly(names[i], v, limits);
    }
    assert AskedWell(raw, limits);
  }

  /**
   A body is accepted if and only if it is not too long and holds a document that decodes
   throughout, is not too deep, has a state, and has between one and `maxQuestions` questions
   in effect, each of which is well posed.
   */
  lemma AcceptedExactly(bodyBytes: nat, document: Option<Raw>, limits: Limits)
    ensures FromSlice(bodyBytes, document, limits).Ok?
      <==> bodyBytes <= limits.maxBodyBytes && document.Some? && Acceptable(document.value, limits)
  {
    if FromSlice(bodyBytes, document, limits).Ok? {
      AcceptedIsAcceptable(bodyBytes, document.value, limits);
    }
    if bodyBytes <= limits.maxBodyBytes && document.Some? && Acceptable(document.value, limits) {
      AcceptsAcceptable(bodyBytes, document.value, limits);
    }
  }
}
