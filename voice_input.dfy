/**
 * The keyword extraction of the voice input helper: recognised speech is
 * lower-cased and searched for symptom, medication and health-metric words,
 * in Malayalam or English, and the first matching label of each group is
 * entered in a map under the group's key.
 */
module VoiceInput {
  import opened Models

  // ---- Lower-casing ----

  /** Upper-case ASCII letters become lower case; every other character is kept. */
  function LowerChar(c: char): (d: char)
    ensures 'A' <= c <= 'Z' ==> 'a' <= d <= 'z' && d as int - c as int == 'a' as int - 'A' as int
    ensures !('A' <= c <= 'Z') ==> d == c
    ensures !('A' <= d <= 'Z')
  {
    if 'A' <= c <= 'Z' then (c as int - 'A' as int + 'a' as int) as char else c
  }

  /** `lowercase()`, character by character. */
  function ToLower(s: string): (r: string)
    ensures |r| == |s|
    ensures forall i :: 0 <= i < |s| ==> r[i] == LowerChar(s[i])
  {
    if s == [] then [] else [LowerChar(s[0])] + ToLower(s[1..])
  }

  /** Lower-casing twice is lower-casing once. */
  lemma ToLowerIdempotent(s: string)
    ensures ToLower(ToLower(s)) == ToLower(s)
  {
    assert forall i :: 0 <= i < |s| ==> ToLower(ToLower(s))[i] == ToLower(s)[i];
  }

  /** A text with no upper-case letter is its own lower case. */
  lemma ToLowerOfLower(s: string)
    requires forall i :: 0 <= i < |s| ==> !('A' <= s[i] <= 'Z')
    ensures ToLower(s) == s
  {
    assert forall i :: 0 <= i < |s| ==> ToLower(s)[i] == s[i];
  }

  // ---- Substring search ----

  predicate OccursAt(text: string, word: string, i: int) {
    0 <= i && i + |word| <= |text| && text[i..i + |word|] == word
  }

  /** `text.contains(word)`: the empty word occurs in every text; a longer word than the text never does. */
  predicate Contains(text: string, word: string)
    ensures word == [] ==> Contains(text, word)
    ensures Contains(text, word) ==> |word| <= |text|
  {
    assert word == [] ==> OccursAt(text, word, 0);
    exists i :: 0 <= i <= |text| - |word| && OccursAt(text, word, i)
  }

  /** A word occurring in a text occurs in its lower case, provided it has no upper-case letter. */
  lemma ContainsSurvivesLowering(text: string, word: string, i: int)
    requires OccursAt(text, word, i)
    requires forall k :: 0 <= k < |word| ==> !('A' <= word[k] <= 'Z')
    ensures OccursAt(ToLower(text), word, i)
  {
    var lowered := ToLower(text)[i..i + |word|];
    forall k | 0 <= k < |word|
      ensures lowered[k] == word[k]
    {
      assert text[i..i + |word|][k] == text[i + k];
    }
    assert lowered == word;
  }

  /** A word whose first character the text lacks does not occur in it. */
  lemma AbsentFirstChar(text: string, word: string)
    requires word != []
    requires forall i :: 0 <= i < |text| ==> text[i] != word[0]
    ensures !Contains(text, word)
  {
    forall i | 0 <= i <= |text| - |word|
      ensures !OccursAt(text, word, i)
    {
      assert text[i..i + |word|][0] == text[i];
    }
  }

  /** A non-empty word never occurs in the empty text. */
  lemma NothingInEmpty(word: string)
    requires word != []
    ensures !Contains("", word)
  {
  }

  // ---- The keyword tables ----

  const SymptomKey: string := "symptom"
  const MedicationKey: string := "medication"
  const MetricKey: string := "metric"

  const HeadacheMl: string := "തലവേദന"
  const HeadacheLabel: string := "തലവേദന (Headache)"
  const LegPainMl: string := "കാൽ വേദന"
  const LegPainLabel: string := "കാൽ വേദന (Leg pain)"
  const TiredMl: string := "ക്ഷീണം"
  const TiredLabel: string := "ക്ഷീണം (Tired)"
  const StomachMl: string := "വയറുവേദന"
  const StomachLabel: string := "വയറുവേദന (Stomach pain)"
  const TabletMl: string := "ഗുളിക"
  const TookMl: string := "എടുത്തു"
  const MedicineLabel: string := "മരുന്ന് എടുത്തു (Took medicine)"
  const BloodPressureMl: string := "രക്തസമ്മർദ്ദം"
  const BloodPressureLabel: string := "രക്തസമ്മർദ്ദം (Blood pressure)"
  const SugarMl: string := "പഞ്ചസാര"
  const SugarLabel: string := "പഞ്ചസാര (Sugar)"

  /** An entry and the words, any one of which selects it. */
  datatype Rule = Rule(words: seq<string>, entry: string)

  /** Each group's rules in the order the source tries them. */
  const SymptomRules: seq<Rule> := [
    Rule([HeadacheMl, "headache"], HeadacheLabel),
    Rule([LegPainMl, "leg pain"], LegPainLabel),
    Rule([TiredMl, "tired"], TiredLabel),
    Rule([StomachMl, "stomach"], StomachLabel)]
  const MedicationRules: seq<Rule> := [Rule([TabletMl, "tablet", TookMl], MedicineLabel)]
  const MetricRules: seq<Rule> := [
    Rule([BloodPressureMl, "blood pressure"], BloodPressureLabel),
    Rule([SugarMl, "sugar"], SugarLabel)]

  predicate Matches(text: string, words: seq<string>) {
    exists j :: 0 <= j < |words| && Contains(text, words[j])
  }

  /** The entry of the first rule one of whose words the text contains. */
  function FirstLabel(text: string, rules: seq<Rule>): (r: Option<string>)
    ensures r == None <==> forall j :: 0 <= j < |rules| ==> !Matches(text, rules[j].words)
    ensures r != None ==>
      exists j :: 0 <= j < |rules| && Matches(text, rules[j].words) && r == Some(rules[j].entry)
        && forall k :: 0 <= k < j ==> !Matches(text, rules[k].words)
  {
    if rules == [] then None
    else if Matches(text, rules[0].words) then Some(rules[0].entry)
    else
      var r := FirstLabel(text, rules[1..]);
      assert forall j :: 1 <= j < |rules| ==> rules[1..][j - 1] == rules[j];
      r
  }

  /** One step of the search: the first rule if it matches, else the search of the rest. */
  lemma FirstLabelCons(text: string, rule: Rule, rest: seq<Rule>)
    ensures FirstLabel(text, [rule] + rest) ==
      if Matches(text, rule.words) then Some(rule.entry) else FirstLabel(text, rest)
  {
    assert ([rule] + rest)[1..] == rest;
  }

  lemma MatchesTwo(text: string, a: string, b: string)
    ensures Matches(text, [a, b]) <==> Contains(text, a) || Contains(text, b)
  {
    if Contains(text, a) {
      assert [a, b][0] == a;
    } else if Contains(text, b) {
      assert [a, b][1] == b;
    }
  }

  lemma MatchesThree(text: string, a: string, b: string, c: string)
    ensures Matches(text, [a, b, c]) <==> Contains(text, a) || Contains(text, b) || Contains(text, c)
  {
    if Contains(text, a) {
      assert [a, b, c][0] == a;
    } else if Contains(text, b) {
      assert [a, b, c][1] == b;
    } else if Contains(text, c) {
      assert [a, b, c][2] == c;
    }
  }

  /** The symptom table tried in order: headache, leg pain, tiredness, stomach pain. */
  lemma SymptomEntry(text: string)
    ensures FirstLabel(text, SymptomRules) ==
      if Contains(text, HeadacheMl) || Contains(text, "headache") then Some(HeadacheLabel)
      else if Contains(text, LegPainMl) || Contains(text, "leg pain") then Some(LegPainLabel)
      else if Contains(text, TiredMl) || Contains(text, "tired") then Some(TiredLabel)
      else if Contains(text, StomachMl) || Contains(text, "stomach") then Some(StomachLabel)
      else None
  {
    MatchesTwo(text, HeadacheMl, "headache");
    MatchesTwo(text, LegPainMl, "leg pain");
    MatchesTwo(text, TiredMl, "tired");
    MatchesTwo(text, StomachMl, "stomach");
    var r := SymptomRules;
    FirstLabelCons(text, r[3], []);
    FirstLabelCons(text, r[2], [r[3]]);
    FirstLabelCons(text, r[1], [r[2], r[3]]);
    FirstLabelCons(text, r[0], [r[1], r[2], r[3]]);
    assert r == [r[0]] + [r[1], r[2], r[3]];
  }

  /** One rule: any of the pill word, "tablet" or the word for "took". */
  lemma MedicationEntry(text: string)
    ensures FirstLabel(text, MedicationRules) ==
      if Contains(text, TabletMl) || Contains(text, "tablet") || Contains(text, TookMl) then Some(MedicineLabel)
      else None
  {
    MatchesThree(text, TabletMl, "tablet", TookMl);
    FirstLabelCons(text, MedicationRules[0], []);
    assert MedicationRules == [MedicationRules[0]] + [];
  }

  /** Blood pressure is tried before sugar. */
  lemma MetricEntry(text: string)
    ensures FirstLabel(text, MetricRules) ==
      if Contains(text, BloodPressureMl) || Contains(text, "blood pressure") then Some(BloodPressureLabel)
      else if Contains(text, SugarMl) || Contains(text, "sugar") then Some(SugarLabel)
      else None
  {
    MatchesTwo(text, BloodPressureMl, "blood pressure");
    MatchesTwo(text, SugarMl, "sugar");
    var r := MetricRules;
    FirstLabelCons(text, r[1], []);
    FirstLabelCons(text, r[0], [r[1]]);
    assert r == [r[0]] + [r[1]];
  }

  function Put(m: map<string, string>, key: string, found: Option<string>): map<string, string> {
    match found
    case Some(l) => m[key := l]
    case None => m
  }

  /** The map the keyword tables give for an already lower-cased text. */
  function KeywordsOf(lowerText: string): (m: map<string, string>)
    ensures m.Keys <= {SymptomKey, MedicationKey, MetricKey}
  {
    var symptoms := Put(map[], SymptomKey, FirstLabel(lowerText, SymptomRules));
    var medications := Put(symptoms, MedicationKey, FirstLabel(lowerText, MedicationRules));
    Put(medications, MetricKey, FirstLabel(lowerText, MetricRules))
  }

  /** `parseHealthKeywords`: one `when` per group, each filling at most its own key. */
  method ParseHealthKeywords(text: string) returns (keywords: map<string, string>)
    ensures keywords == KeywordsOf(ToLower(text))
    ensures keywords.Keys <= {SymptomKey, MedicationKey, MetricKey}
  {
    keywords := map[];
    var lowerText := ToLower(text);
    ghost var symptom := FirstLabel(lowerText, SymptomRules);
    ghost var medication := FirstLabel(lowerText, MedicationRules);
    ghost var metric := FirstLabel(lowerText, MetricRules);
    SymptomEntry(lowerText);
    MedicationEntry(lowerText);
    MetricEntry(lowerText);
    assert KeywordsOf(lowerText) == Put(Put(Put(map[], SymptomKey, symptom), MedicationKey, medication), MetricKey, metric);

    if Contains(lowerText, HeadacheMl) || Contains(lowerText, "headache") {
      keywords := keywords[SymptomKey := HeadacheLabel];
    } else if Contains(lowerText, LegPainMl) || Contains(lowerText, "leg pain") {
      keywords := keywords[SymptomKey := LegPainLabel];
    } else if Contains(lowerText, TiredMl) || Contains(lowerText, "tired") {
      keywords := keywords[SymptomKey := TiredLabel];
    } else if Contains(lowerText, StomachMl) || Contains(lowerText, "stomach") {
      keywords := keywords[SymptomKey := StomachLabel];
    }
    assert keywords == Put(map[], SymptomKey, symptom);

    if Contains(lowerText, TabletMl) || Contains(lowerText, "tablet") || Contains(lowerText, TookMl) {
      keywords := keywords[MedicationKey := MedicineLabel];
    }
    assert keywords == Put(Put(map[], SymptomKey, symptom), MedicationKey, medication);

    if Contains(lowerText, BloodPressureMl) || Contains(lowerText, "blood pressure") {
      keywords := keywords[MetricKey := BloodPressureLabel];
    } else if Contains(lowerText, SugarMl) || Contains(lowerText, "sugar") {
      keywords := keywords[MetricKey := SugarLabel];
    }
  }

  // ---- Properties of the keyword map ----

  /** Speech containing no known word yields the empty map, and only such speech does. */
  lemma NoKeywordsIff(lowerText: string)
    ensures KeywordsOf(lowerText) == map[] <==>
      && FirstLabel(lowerText, SymptomRules) == None
      && FirstLabel(lowerText, MedicationRules) == None
      && FirstLabel(lowerText, MetricRules) == None
  {
    if FirstLabel(lowerText, SymptomRules) != None {
      assert SymptomKey in KeywordsOf(lowerText);
    } else if FirstLabel(lowerText, MedicationRules) != None {
      assert MedicationKey in KeywordsOf(lowerText);
    } else if FirstLabel(lowerText, MetricRules) != None {
      assert MetricKey in KeywordsOf(lowerText);
    }
  }

  /** Empty speech yields the empty map. */
  lemma {:induction false} EmptySpeechHasNoKeywords()
    ensures KeywordsOf(ToLower("")) == map[]
  {
    assert ToLower("") == "";
    SymptomEntry("");
    MedicationEntry("");
    MetricEntry("");
    NothingInEmpty(HeadacheMl); NothingInEmpty("headache");
    NothingInEmpty(LegPainMl); NothingInEmpty("leg pain");
    NothingInEmpty(TiredMl); NothingInEmpty("tired");
    NothingInEmpty(StomachMl); NothingInEmpty("stomach");
    NothingInEmpty(TabletMl); NothingInEmpty("tablet"); NothingInEmpty(TookMl);
    NothingInEmpty(BloodPressureMl); NothingInEmpty("blood pressure");
    NothingInEmpty(SugarMl); NothingInEmpty("sugar");
    NoKeywordsIff("");
  }

  /** The medication entry is present iff one of its three words is, and it is always the same entry. */
  lemma MedicationIff(lowerText: string)
    ensures MedicationKey in KeywordsOf(lowerText) <==>
      Contains(lowerText, TabletMl) || Contains(lowerText, "tablet") || Contains(lowerText, TookMl)
    ensures MedicationKey in KeywordsOf(lowerText) ==> KeywordsOf(lowerText)[MedicationKey] == MedicineLabel
  {
    MedicationEntry(lowerText);
  }

  /** A headache word decides the symptom, whatever other symptoms are mentioned. */
  lemma HeadacheComesFirst(lowerText: string)
    requires Contains(lowerText, HeadacheMl) || Contains(lowerText, "headache")
    ensures SymptomKey in KeywordsOf(lowerText) && KeywordsOf(lowerText)[SymptomKey] == HeadacheLabel
  {
    SymptomEntry(lowerText);
  }

  /** Stomach pain is reported only when no earlier symptom word occurs. */
  lemma StomachComesLast(lowerText: string)
    ensures SymptomKey in KeywordsOf(lowerText) && KeywordsOf(lowerText)[SymptomKey] == StomachLabel <==>
      && !(Contains(lowerText, HeadacheMl) || Contains(lowerText, "headache"))
      && !(Contains(lowerText, LegPainMl) || Contains(lowerText, "leg pain"))
      && !(Contains(lowerText, TiredMl) || Contains(lowerText, "tired"))
      && (Contains(lowerText, StomachMl) || Contains(lowerText, "stomach"))
  {
    SymptomEntry(lowerText);
  }

  /** When blood pressure and sugar are both mentioned, blood pressure is the metric. */
  lemma BloodPressureBeatsSugar(lowerText: string)
    ensures MetricKey in KeywordsOf(lowerText) <==>
      Contains(lowerText, BloodPressureMl) || Contains(lowerText, "blood pressure")
        || Contains(lowerText, SugarMl) || Contains(lowerText, "sugar")
    ensures Contains(lowerText, BloodPressureMl) || Contains(lowerText, "blood pressure") ==>
      KeywordsOf(lowerText)[MetricKey] == BloodPressureLabel
  {
    MetricEntry(lowerText);
  }

  /** Parsing ignores case: the parse of already lower-cased speech equals the parse of the original. */
  lemma ParsingIgnoresCase(text: string)
    ensures KeywordsOf(ToLower(ToLower(text))) == KeywordsOf(ToLower(text))
  {
    ToLowerIdempotent(text);
  }

  /** "tablet" in any mix of case is recognised as taking medicine. */
  lemma TabletInAnyCase(text: string, i: int)
    requires OccursAt(ToLower(text), "tablet", i)
    ensures MedicationKey in KeywordsOf(ToLower(text)) && KeywordsOf(ToLower(text))[MedicationKey] == MedicineLabel
  {
    MedicationIff(ToLower(text));
  }

  /** "HEADACHE" lower-cases to "headache". */
  lemma LowerShouted()
    ensures ToLower("HEADACHE") == "headache"
  {
    var lowered := ToLower("HEADACHE");
    assert forall i :: 0 <= i < 8 ==> lowered[i] == LowerChar("HEADACHE"[i]);
  }

  /** "headache" names a symptom but neither a medicine nor a metric. */
  lemma HeadacheWordEntries()
    ensures FirstLabel("headache", SymptomRules) == Some(HeadacheLabel)
    ensures FirstLabel("headache", MedicationRules) == None
    ensures FirstLabel("headache", MetricRules) == None
  {
    var lowered := "headache";
    assert OccursAt(lowered, "headache", 0);
    SymptomEntry(lowered);
    AbsentFirstChar(lowered, "tablet");
    AbsentFirstChar(lowered, TabletMl);
    AbsentFirstChar(lowered, TookMl);
    MedicationEntry(lowered);
    AbsentFirstChar(lowered, BloodPressureMl);
    AbsentFirstChar(lowered, "blood pressure");
    AbsentFirstChar(lowered, SugarMl);
    AbsentFirstChar(lowered, "sugar");
    MetricEntry(lowered);
  }

  /** Upper-case English is recognised: "HEADACHE" alone gives just the headache entry. */
  lemma ShoutedHeadache()
    ensures KeywordsOf(ToLower("HEADACHE")) == map[SymptomKey := HeadacheLabel]
  {
    LowerShouted();
    HeadacheWordEntries();
  }
}
