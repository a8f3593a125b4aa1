/** The prescription scorer: the text read from a medical receipt is searched
    for medications, diagnoses and test names of three conditions, each kind
    weighted 3, 2 and 1; a condition scoring at least 2 is reported, with
    "High" confidence from 3 up. */
module MedicalReport {
  import opened Common

  datatype Condition = Hypertension | Diabetes | Thyroid

  datatype Terms = Terms(medications: seq<string>, diagnosis: seq<string>, tests: seq<string>)

  /** One row of the keyword table. */
  datatype Entry = Entry(condition: Condition, terms: Terms)

  const HypertensionMedications: seq<string> := [
    "amlodipine", "losartan", "atenolol", "metoprolol", "hydrochlorothiazide",
    "valsartan", "irbesartan", "olmesartan", "telmisartan", "candesartan",
    "bisoprolol", "carvedilol", "nebivolol", "propranolol"]
  const HypertensionDiagnosis: seq<string> := [
    "hypertension", "high blood pressure", "htn", "bp elevated",
    "blood pressure high", "hypertensive"]
  const HypertensionTests: seq<string> := ["blood pressure", "bp reading", "systolic", "diastolic"]

  const DiabetesMedications: seq<string> := [
    "metformin", "insulin", "glibenclamide", "glyburide", "glipizide",
    "gliclazide", "pioglitazone", "rosiglitazone", "sitagliptin", "vildagliptin"]
  const DiabetesDiagnosis: seq<string> := [
    "diabetes", "diabetic", "type 1 diabetes", "type 2 diabetes",
    "dm", "diabetes mellitus"]
  const DiabetesTests: seq<string> := ["hba1c", "blood sugar", "glucose", "fasting sugar", "postprandial"]

  const ThyroidMedications: seq<string> := [
    "levothyroxine", "thyroxine", "synthroid", "euthyrox", "liothyronine",
    "propylthiouracil", "methimazole", "carbimazole"]
  const ThyroidDiagnosis: seq<string> := [
    "hypothyroidism", "hyperthyroidism", "thyroid disorder", "hashimoto",
    "graves disease", "thyroiditis"]
  const ThyroidTests: seq<string> := ["tsh", "t3", "t4", "thyroid stimulating hormone"]

  /** The keyword table, in its order. */
  const KeywordTable: seq<Entry> := [
    Entry(Hypertension, Terms(HypertensionMedications, HypertensionDiagnosis, HypertensionTests)),
    Entry(Diabetes, Terms(DiabetesMedications, DiabetesDiagnosis, DiabetesTests)),
    Entry(Thyroid, Terms(ThyroidMedications, ThyroidDiagnosis, ThyroidTests))
  ]

  function AllTerms(t: Terms): seq<string> {
    t.medications + t.diagnosis + t.tests
  }

  predicate Distinct<T(==)>(s: seq<T>) {
    forall i, j :: 0 <= i < j < |s| ==> s[i] != s[j]
  }

  /** The conditions of a table, in its order. */
  function ConditionsOf(table: seq<Entry>): (cs: seq<Condition>)
    ensures |cs| == |table|
    ensures forall i :: 0 <= i < |table| ==> cs[i] == table[i].condition
  {
    if table == [] then [] else [table[0].condition] + ConditionsOf(table[1..])
  }

  /** The conditions of a result, in its order. */
  function DetectedConditions(ds: seq<Detection>): (cs: seq<Condition>)
    ensures |cs| == |ds|
    ensures forall i :: 0 <= i < |ds| ==> cs[i] == ds[i].condition
  {
    seq(|ds|, i requires 0 <= i < |ds| => ds[i].condition)
  }

  /** Python's `term in text`: the term occurs as a substring. */
  predicate Occurs(term: string, text: string) {
    exists i :: 0 <= i <= |text| && OccursAt(term, text, i)
  }

  predicate OccursAt(term: string, text: string, i: nat) {
    i + |term| <= |text| && text[i..i + |term|] == term
  }

  /** The terms of a list that occur in the text, in the list's order. */
  function Matched(terms: seq<string>, text: string): (found: seq<string>)
    ensures |found| <= |terms|
    decreases |terms|
  {
    if terms == [] then []
    else
      var last := terms[|terms| - 1];
      Matched(terms[..|terms| - 1], text) + (if Occurs(last, text) then [last] else [])
  }

  /** A term is matched exactly when it is in the list and occurs in the
      text. */
  lemma {:induction false} MatchedMembers(terms: seq<string>, text: string)
    ensures forall t :: t in Matched(terms, text) <==> t in terms && Occurs(t, text)
    decreases |terms|
  {
    if terms != [] {
      var init := terms[..|terms| - 1];
      MatchedMembers(init, text);
      assert terms == init + [terms[|terms| - 1]];
    }
  }

  /** The weighted score of one condition's terms against the lower-cased
      text. */
  function Score(t: Terms, lowered: string): nat {
    3 * |Matched(t.medications, lowered)| + 2 * |Matched(t.diagnosis, lowered)| + |Matched(t.tests, lowered)|
  }

  /** The matched terms of one condition: medications, then diagnoses, then
      tests. */
  function Found(t: Terms, lowered: string): seq<string> {
    Matched(t.medications, lowered) + Matched(t.diagnosis, lowered) + Matched(t.tests, lowered)
  }

  datatype Confidence = High | Medium

  datatype Detection = Detection(condition: Condition, score: nat, keywords: seq<string>, confidence: Confidence)

  /** The entries `analyze_medical_content` records for a table, in its
      order. */
  function DetectAll(table: seq<Entry>, lowered: string): (r: seq<Detection>)
    ensures |r| <= |table|
    decreases |table|
  {
    if table == [] then [] else Detect(table[0], lowered) + DetectAll(table[1..], lowered)
  }

  /** The entry one condition contributes: recorded when its score reaches
      2, with "High" confidence from 3. */
  function Detect(e: Entry, lowered: string): (r: seq<Detection>)
    ensures |r| <= 1
  {
    var s := Score(e.terms, lowered);
    if s >= 2 then [Detection(e.condition, s, Found(e.terms, lowered), if s >= 3 then High else Medium)] else []
  }

  /** The body of the outer loop of `analyze_medical_content`: the three
      keyword lists of one condition scanned with weights 3, 2 and 1. */
  method ScanEntry(e: Entry, lowered: string) returns (hit: seq<Detection>)
    ensures hit == Detect(e, lowered)
  {
    var meds, medsFound := ScanTerms(e.terms.medications, lowered, 3);
    var diag, diagFound := ScanTerms(e.terms.diagnosis, lowered, 2);
    var tests, testsFound := ScanTerms(e.terms.tests, lowered, 1);
    var score := meds + diag + tests;
    hit := [];
    if score >= 2 {
      hit := [Detection(e.condition, score, medsFound + diagFound + testsFound, if score >= 3 then High else Medium)];
    }
  }

  /** One keyword list scanned in order: each term found adds `weight` and
      is recorded. */
  method ScanTerms(terms: seq<string>, lowered: string, weight: nat) returns (points: nat, found: seq<string>)
    ensures found == Matched(terms, lowered)
    ensures points == weight * |found|
  {
    points, found := 0, [];
    var i := 0;
    while i < |terms|
      invariant 0 <= i <= |terms|
      invariant found == Matched(terms[..i], lowered)
      invariant points == weight * |found|
    {
      assert terms[..i + 1][..i] == terms[..i];
      assert Matched(terms[..i + 1], lowered)
          == Matched(terms[..i], lowered) + (if Occurs(terms[i], lowered) then [terms[i]] else []);
      if Occurs(terms[i], lowered) {
        points := points + weight;
        found := found + [terms[i]];
      }
      i := i + 1;
    }
    assert terms[..|terms|] == terms;
  }

  /** The two nested loops of `analyze_medical_content` over a keyword
      table and the lower-cased text. */
  method ScanTable(table: seq<Entry>, lowered: string) returns (detected: seq<Detection>)
    ensures detected == DetectAll(table, lowered)
  {
    detected := [];
    var k := 0;
    while k < |table|
      invariant 0 <= k <= |table|
      invariant detected + DetectAll(table[k..], lowered) == DetectAll(table, lowered)
    {
      var hit := ScanEntry(table[k], lowered);
      assert table[k..][1..] == table[k + 1..];
      detected := detected + hit;
      k := k + 1;
    }
  }

  /** `analyze_medical_content` without its progress animation: the text is
      lower-cased and scored against the keyword table. */
  method AnalyzeMedicalContent(text: string) returns (detected: seq<Detection>)
    ensures detected == DetectAll(KeywordTable, Lower(text))
  {
    detected := ScanTable(KeywordTable, Lower(text));
  }

  /** Every reported entry comes from a row of the table, scores at least
      2, carries that row's weighted score and matched terms, and is "High"
      exactly from 3 up. */
  lemma {:induction false} DetectAllSound(table: seq<Entry>, lowered: string)
    ensures forall d :: d in DetectAll(table, lowered) ==>
              d.score >= 2 && (d.confidence == High <==> d.score >= 3) &&
              exists e :: e in table && e.condition == d.condition
                          && d.score == Score(e.terms, lowered) && d.keywords == Found(e.terms, lowered)
    decreases |table|
  {
    if table != [] {
      DetectAllSound(table[1..], lowered);
      assert forall x :: x in table[1..] ==> x in table;
    }
  }

  /** Every row scoring at least 2 is reported. */
  lemma {:induction false} DetectAllComplete(table: seq<Entry>, lowered: string)
    ensures forall e :: e in table && Score(e.terms, lowered) >= 2 ==>
              exists d :: d in DetectAll(table, lowered) && d.condition == e.condition
    decreases |table|
  {
    if table != [] {
      DetectAllComplete(table[1..], lowered);
      var e := table[0];
      var s := Score(e.terms, lowered);
      var head := if s >= 2 then [Detection(e.condition, s, Found(e.terms, lowered), if s >= 3 then High else Medium)] else [];
      assert DetectAll(table, lowered) == head + DetectAll(table[1..], lowered);
      forall x | x in table && Score(x.terms, lowered) >= 2
        ensures exists d :: d in DetectAll(table, lowered) && d.condition == x.condition
      {
        if x != e {
          assert x in table[1..];
        } else {
          assert head[0] in DetectAll(table, lowered);
        }
      }
    }
  }

  /** Every reported condition is a condition of the table. */
  lemma {:induction false} DetectedFromTable(table: seq<Entry>, lowered: string)
    ensures forall d :: d in DetectAll(table, lowered) ==> d.condition in ConditionsOf(table)
    decreases |table|
  {
    if table != [] {
      DetectedFromTable(table[1..], lowered);
      assert ConditionsOf(table) == [table[0].condition] + ConditionsOf(table[1..]);
    }
  }

  /** With distinct conditions in the table, no condition is reported
      twice. */
  lemma {:induction false} DetectAllOnce(table: seq<Entry>, lowered: string)
    requires Distinct(ConditionsOf(table))
    ensures Distinct(DetectedConditions(DetectAll(table, lowered)))
    decreases |table|
  {
    if table != [] {
      var tail := table[1..];
      var e := table[0];
      assert ConditionsOf(table) == [e.condition] + ConditionsOf(tail);
      assert e.condition !in ConditionsOf(tail);
      DetectAllOnce(tail, lowered);
      DetectedFromTable(tail, lowered);
      var rest := DetectAll(tail, lowered);
      var r := DetectAll(table, lowered);
      if Score(e.terms, lowered) >= 2 {
        assert r == [r[0]] + rest && r[0].condition == e.condition;
        forall i, j | 0 <= i < j < |r|
          ensures DetectedConditions(r)[i] != DetectedConditions(r)[j]
        {
          assert r[j] == rest[j - 1];
          if i > 0 {
            assert r[i] == rest[i - 1];
            assert DetectedConditions(rest)[i - 1] != DetectedConditions(rest)[j - 1];
          }
        }
      } else {
        assert r == rest;
      }
    }
  }

  /** A text containing no keyword of any row detects nothing. */
  lemma {:induction false} NoKeywordsNoDetection(table: seq<Entry>, lowered: string)
    requires forall e, t :: e in table && t in AllTerms(e.terms) ==> !Occurs(t, lowered)
    ensures DetectAll(table, lowered) == []
    decreases |table|
  {
    if table != [] {
      var e := table[0];
      NothingMatched(e.terms.medications, lowered);
      NothingMatched(e.terms.diagnosis, lowered);
      NothingMatched(e.terms.tests, lowered);
      assert forall x :: x in table[1..] ==> x in table;
      NoKeywordsNoDetection(table[1..], lowered);
    }
  }

  lemma {:induction false} NothingMatched(terms: seq<string>, text: string)
    requires forall t :: t in terms ==> !Occurs(t, text)
    ensures Matched(terms, text) == []
    decreases |terms|
  {
    if terms != [] {
      assert forall t :: t in terms[..|terms| - 1] ==> t in terms;
      NothingMatched(terms[..|terms| - 1], text);
    }
  }

  /** With distinct terms in a list, the matched terms are distinct too. */
  lemma {:induction false} MatchedDistinct(terms: seq<string>, text: string)
    requires Distinct(terms)
    ensures Distinct(Matched(terms, text))
    decreases |terms|
  {
    if terms != [] {
      var init := terms[..|terms| - 1];
      var last := terms[|terms| - 1];
      assert Distinct(init);
      MatchedDistinct(init, text);
      MatchedMembers(init, text);
      assert last !in init;
    }
  }

  /** No term has an upper-case letter. */
  predicate LowerCaseTerms(terms: seq<string>) {
    forall i :: 0 <= i < |terms| ==> forall k :: 0 <= k < |terms[i]| ==> !IsUpper(terms[i][k])
  }

  /** The table holds the three conditions, each once, and no upper-case
      letter in any term. */
  lemma KeywordTableShape()
    ensures ConditionsOf(KeywordTable) == [Hypertension, Diabetes, Thyroid]
    ensures Distinct(ConditionsOf(KeywordTable))
    ensures forall e :: e in KeywordTable ==> LowerCaseTerms(AllTerms(e.terms))
    ensures forall e :: e in KeywordTable ==> Distinct(AllTerms(e.terms))
  {
    HypertensionTermsDistinct();
    DiabetesTermsDistinct();
    ThyroidTermsDistinct();
    RowLowerCase(0);
    RowLowerCase(1);
    RowLowerCase(2);
  }

  lemma RowLowerCase(k: nat)
    requires k < |KeywordTable|
    ensures LowerCaseTerms(AllTerms(KeywordTable[k].terms))
  {
    var t := KeywordTable[k].terms;
    if k == 0 {
      HypertensionMedicationsLowerCase();
      HypertensionDiagnosisLowerCase();
      HypertensionTestsLowerCase();
    } else if k == 1 {
      DiabetesMedicationsLowerCase();
      DiabetesDiagnosisLowerCase();
      DiabetesTestsLowerCase();
    } else {
      ThyroidMedicationsLowerCase();
      ThyroidDiagnosisLowerCase();
      ThyroidTestsLowerCase();
    }
    LowerCaseAppend(t.medications, t.diagnosis);
    LowerCaseAppend(t.medications + t.diagnosis, t.tests);
  }

  /** The keyword lists, checked letter by letter. */
  lemma HypertensionMedicationsLowerCase()
    ensures LowerCaseTerms(HypertensionMedications)
  {
  }

  lemma HypertensionDiagnosisLowerCase()
    ensures LowerCaseTerms(HypertensionDiagnosis)
  {
  }

  lemma HypertensionTestsLowerCase()
    ensures LowerCaseTerms(HypertensionTests)
  {
  }

  lemma DiabetesMedicationsLowerCase()
    ensures LowerCaseTerms(DiabetesMedications)
  {
  }

  lemma DiabetesDiagnosisLowerCase()
    ensures LowerCaseTerms(DiabetesDiagnosis)
  {
  }

  lemma DiabetesTestsLowerCase()
    ensures LowerCaseTerms(DiabetesTests)
  {
  }

  lemma ThyroidMedicationsLowerCase()
    ensures LowerCaseTerms(ThyroidMedications)
  {
  }

  lemma ThyroidDiagnosisLowerCase()
    ensures LowerCaseTerms(ThyroidDiagnosis)
  {
  }

  lemma ThyroidTestsLowerCase()
    ensures LowerCaseTerms(ThyroidTests)
  {
  }

  /** No term is listed twice in a row of the table. */
  lemma HypertensionTermsDistinct()
    ensures Distinct(HypertensionMedications + HypertensionDiagnosis + HypertensionTests)
  {
  }

  lemma DiabetesTermsDistinct()
    ensures Distinct(DiabetesMedications + DiabetesDiagnosis + DiabetesTests)
  {
  }

  lemma ThyroidTermsDistinct()
    ensures Distinct(ThyroidMedications + ThyroidDiagnosis + ThyroidTests)
  {
  }

  lemma LowerCaseAppend(a: seq<string>, b: seq<string>)
    requires LowerCaseTerms(a) && LowerCaseTerms(b)
    ensures LowerCaseTerms(a + b)
  {
    forall i | 0 <= i < |a + b|
      ensures forall k :: 0 <= k < |(a + b)[i]| ==> !IsUpper((a + b)[i][k])
    {
      if i >= |a| {
        assert (a + b)[i] == b[i - |a|];
      }
    }
  }

  lemma DistinctParts<T>(a: seq<T>, b: seq<T>)
    requires Distinct(a + b)
    ensures Distinct(a) && Distinct(b)
    ensures forall x :: x in a ==> x !in b
  {
    assert forall i :: 0 <= i < |b| ==> (a + b)[|a| + i] == b[i];
    forall i, j | 0 <= i < j < |a|
      ensures a[i] != a[j]
    {
      assert (a + b)[i] != (a + b)[j];
    }
    forall i, j | 0 <= i < j < |b|
      ensures b[i] != b[j]
    {
      assert (a + b)[|a| + i] != (a + b)[|a| + j];
    }
    forall x | x in a
      ensures x !in b
    {
      var i :| 0 <= i < |a| && a[i] == x;
      forall j | 0 <= j < |b|
        ensures b[j] != x
      {
        assert (a + b)[i] != (a + b)[|a| + j];
      }
    }
  }

  lemma DistinctJoin<T>(a: seq<T>, b: seq<T>)
    requires Distinct(a) && Distinct(b)
    requires forall x :: x in a ==> x !in b
    ensures Distinct(a + b)
  {
    forall i, j | 0 <= i < j < |a + b|
      ensures (a + b)[i] != (a + b)[j]
    {
      if j >= |a| {
        assert (a + b)[j] == b[j - |a|];
        if i < |a| {
          assert (a + b)[i] in a;
        }
      }
    }
  }

  /** When a row lists no term twice, its matched terms hold no term
      twice. */
  lemma FoundDistinct(t: Terms, lowered: string)
    requires Distinct(AllTerms(t))
    ensures Distinct(Found(t, lowered))
  {
    DistinctParts(t.medications + t.diagnosis, t.tests);
    DistinctParts(t.medications, t.diagnosis);
    var m := Matched(t.medications, lowered);
    var d := Matched(t.diagnosis, lowered);
    var te := Matched(t.tests, lowered);
    MatchedDistinct(t.medications, lowered);
    MatchedDistinct(t.diagnosis, lowered);
    MatchedDistinct(t.tests, lowered);
    MatchedMembers(t.medications, lowered);
    MatchedMembers(t.diagnosis, lowered);
    MatchedMembers(t.tests, lowered);
    DistinctJoin(m, d);
    assert forall x :: x in m + d ==> x in t.medications + t.diagnosis;
    DistinctJoin(m + d, te);
  }

  /** Each reported condition lists its matched keywords once each. */
  lemma KeywordsListedOnce(text: string)
    ensures forall d :: d in DetectAll(KeywordTable, Lower(text)) ==> Distinct(d.keywords)
  {
    KeywordTableShape();
    DetectAllSound(KeywordTable, Lower(text));
    forall d | d in DetectAll(KeywordTable, Lower(text))
      ensures Distinct(d.keywords)
    {
      var e :| e in KeywordTable && e.condition == d.condition
               && d.score == Score(e.terms, Lower(text)) && d.keywords == Found(e.terms, Lower(text));
      FoundDistinct(e.terms, Lower(text));
    }
  }

  /** Every keyword of the table is lower case and the text is lower-cased
      before matching, so the match is case-insensitive: a keyword written
      in any mixture of cases at position `i` of the text is found. */
  lemma KeywordFoundInAnyCase(e: Entry, t: string, text: string, i: nat)
    requires e in KeywordTable && t in AllTerms(e.terms)
    requires i + |t| <= |text| && Lower(text[i..i + |t|]) == t
    ensures Occurs(t, Lower(text))
    ensures t in Found(e.terms, Lower(text))
  {
    LowerSlice(text, i, i + |t|);
    assert OccursAt(t, Lower(text), i);
    MatchedMembers(e.terms.medications, Lower(text));
    MatchedMembers(e.terms.diagnosis, Lower(text));
    MatchedMembers(e.terms.tests, Lower(text));
  }

  lemma LowerSlice(s: string, i: nat, j: nat)
    requires i <= j <= |s|
    ensures Lower(s)[i..j] == Lower(s[i..j])
  {
    var a, b := Lower(s)[i..j], Lower(s[i..j]);
    forall k | 0 <= k < j - i ensures a[k] == b[k] {
      assert a[k] == LowerChar(s[i + k]);
    }
  }

  /** The extracted-text check: nothing, or fewer than 10 characters once
      surrounding white space is stripped, is rejected. */
  function ExtractedTextOk(extracted: Option<string>): (ok: bool)
    ensures ok <==> extracted.Some? && |Strip(extracted.value)| >= 10
    ensures ok ==> |extracted.value| >= 10
  {
    extracted.Some? && extracted.value != "" && |Strip(extracted.value)| >= 10
  }

  /** Scores never increase along the list. */
  predicate ByScore(ds: seq<Detection>) {
    forall i, j :: 0 <= i < j < |ds| ==> ds[i].score >= ds[j].score
  }

  /** Puts `d` after every entry scoring at least as much. */
  method Insert(sorted: seq<Detection>, d: Detection) returns (r: seq<Detection>)
    requires ByScore(sorted)
    ensures ByScore(r)
    ensures multiset(r) == multiset(sorted) + multiset{d}
  {
    var j := 0;
    while j < |sorted| && sorted[j].score >= d.score
      invariant 0 <= j <= |sorted|
      invariant forall i :: 0 <= i < j ==> sorted[i].score >= d.score
    {
      j := j + 1;
    }
    r := sorted[..j] + [d] + sorted[j..];
    assert sorted == sorted[..j] + sorted[j..];
  }

  /** The display order: detections sorted by score, highest first. */
  method SortByScore(ds: seq<Detection>) returns (sorted: seq<Detection>)
    ensures ByScore(sorted)
    ensures multiset(sorted) == multiset(ds)
  {
    sorted := [];
    var i := 0;
    while i < |ds|
      invariant 0 <= i <= |ds|
      invariant ByScore(sorted)
      invariant multiset(sorted) == multiset(ds[..i])
    {
      sorted := Insert(sorted, ds[i]);
      assert ds[..i + 1] == ds[..i] + [ds[i]];
      i := i + 1;
    }
    assert ds[..|ds|] == ds;
  }
}
