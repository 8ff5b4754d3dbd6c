/**
 * The disease-to-specialist mapping of the classifier service: an ordered
 * list of keyword rules tried against the lower-cased disease name, the
 * first rule with a keyword occurring in the name deciding the specialist,
 * and the loop that tabulates that choice for every class the disease
 * encoder knows.
 */
module SpecialistMapping {

  import opened Text

  /** One `if any(x in d for x in keywords): return specialist` test. */
  datatype Rule = Rule(keywords: seq<string>, specialist: string)

  const DefaultSpecialist: string := "General Physician"

  // The rules of `get_specialist`, one constant each, in the order they are tried.
  const Cardiology: Rule := Rule(["heart", "cardiac", "valve", "aorta", "coronary", "myocardial", "pericardial"], "Cardiologist")
  const Dermatology: Rule := Rule(["skin", "rash", "acne", "psoriasis", "melanoma", "dermatitis", "eczema", "hives", "rosacea", "wart"], "Dermatologist")
  const Neurology: Rule := Rule(["brain", "neuro", "sclerosis", "epilepsy", "alzheimer", "parkinson", "dementia", "migraine", "stroke", "paralysis"], "Neurologist")
  const Gastroenterology: Rule := Rule(["stomach", "bowel", "colon", "gastritis", "reflux", "ulcer", "colitis", "pancrea", "hernia", "constipation", "diarrhea", "vomit", "abdomen"], "Gastroenterologist")
  const Nephrology: Rule := Rule(["kidney", "renal", "nephr"], "Nephrologist")
  const Urology: Rule := Rule(["urine", "urinary", "bladder", "cystitis", "prostate", "testic"], "Urologist")
  const Pulmonology: Rule := Rule(["lung", "pulmonary", "asthma", "bronchitis", "pneumonia", "respiratory", "copd", "emphysema"], "Pulmonologist")
  const Ophthalmology: Rule := Rule(["eye", "retina", "cataract", "glaucoma", "blindness", "conjunctivitis", "vision"], "Ophthalmologist")
  const Ent: Rule := Rule(["ear", "nose", "throat", "sinus", "tonsillitis", "laryngitis", "pharyngitis", "vertigo"], "ENT Specialist")
  const Orthopedics: Rule := Rule(["bone", "fracture", "arthritis", "osteo", "joint", "knee", "hip", "spine", "scoliosis", "tendon", "ligament"], "Orthopedist")
  const Oncology: Rule := Rule(["cancer", "tumor", "leukemia", "lymphoma", "carcinoma", "sarcoma", "malignant"], "Oncologist")
  const Hepatology: Rule := Rule(["liver", "hepatitis", "cirrhosis", "jaundice"], "Hepatologist")
  const Gynecology: Rule := Rule(["female", "pregnancy", "uterine", "ovarian", "vaginal", "menstrua", "breast", "cervical", "endometriosis"], "Gynecologist")
  const Pediatrics: Rule := Rule(["child", "pediatric"], "Pediatrician")
  const Psychiatry: Rule := Rule(["mental", "schizophrenia", "bipolar", "anxiety", "depression", "psychosis", "personality disorder", "autism"], "Psychiatrist")
  const InfectiousDisease: Rule := Rule(["infection", "bacterial", "viral", "malaria", "dengue", "typhoid", "flu", "influenza", "measles", "chickenpox"], "Infectious Disease Specialist")
  const Endocrinology: Rule := Rule(["diabetes", "thyroid", "hormone", "adrenal", "pituitary"], "Endocrinologist")
  const Allergy: Rule := Rule(["allergy", "allergic"], "Allergist")
  const Dentistry: Rule := Rule(["dental", "tooth", "gum", "periodont"], "Dentist")

  /** The rules in the order they are tried. */
  const Rules: seq<Rule> := [
    Cardiology, Dermatology, Neurology, Gastroenterology, Nephrology,
    Urology, Pulmonology, Ophthalmology, Ent, Orthopedics,
    Oncology, Hepatology, Gynecology, Pediatrics, Psychiatry,
    InfectiousDisease, Endocrinology, Allergy, Dentistry
  ]

  /** The twenty labels the mapping can produce. */
  const Specialists: seq<string> := [
    "Cardiologist", "Dermatologist", "Neurologist", "Gastroenterologist", "Nephrologist",
    "Urologist", "Pulmonologist", "Ophthalmologist", "ENT Specialist", "Orthopedist",
    "Oncologist", "Hepatologist", "Gynecologist", "Pediatrician", "Psychiatrist",
    "Infectious Disease Specialist", "Endocrinologist", "Allergist", "Dentist", "General Physician"
  ]

  /** `any(x in d for x in keywords)`, tried left to right. */
  predicate AnyOccurs(d: string, keywords: seq<string>)
  {
    keywords != [] && (Contains(d, keywords[0]) || AnyOccurs(d, keywords[1..]))
  }

  /** `AnyOccurs` holds exactly when one of the keywords occurs in `d`. */
  lemma {:induction false} AnyOccursIff(d: string, keywords: seq<string>)
    ensures AnyOccurs(d, keywords) <==> exists k :: k in keywords && Contains(d, k)
  {
    if keywords != [] {
      AnyOccursIff(d, keywords[1..]);
      if k :| k in keywords && Contains(d, k) {
        if k != keywords[0] {
          assert k in keywords[1..];
        }
      }
    }
  }

  /** If no keyword occurs on its own, `AnyOccurs` is false. */
  lemma {:induction false} NoneOccurs(d: string, keywords: seq<string>)
    requires forall i :: 0 <= i < |keywords| ==> !Contains(d, keywords[i])
    ensures !AnyOccurs(d, keywords)
  {
    if keywords != [] {
      NoneOccurs(d, keywords[1..]);
    }
  }

  /** Some keyword of `rule` occurs in `d`. */
  predicate Matches(rule: Rule, d: string)
  {
    AnyOccurs(d, rule.keywords)
  }

  /** Try `rules` in order on `d`; the first that matches decides. */
  function FirstMatch(rules: seq<Rule>, d: string): (r: string)
    ensures r == DefaultSpecialist || exists i :: 0 <= i < |rules| && r == rules[i].specialist
  {
    if rules == [] then DefaultSpecialist
    else if Matches(rules[0], d) then rules[0].specialist
    else
      var rest := FirstMatch(rules[1..], d);
      assert forall i :: 0 <= i < |rules| - 1 ==> rules[1..][i] == rules[i + 1];
      rest
  }

  /** `get_specialist(disease)`. */
  function GetSpecialist(disease: string): (r: string)
    ensures r in Specialists
  {
    FirstMatch(Rules, Lower(disease))
  }

  /** The first matching rule wins, whatever later rules would say. */
  lemma {:induction false} FirstMatchWins(rules: seq<Rule>, d: string, i: nat)
    requires i < |rules| && Matches(rules[i], d)
    requires forall j :: 0 <= j < i ==> !Matches(rules[j], d)
    ensures FirstMatch(rules, d) == rules[i].specialist
  {
    if i > 0 {
      assert !Matches(rules[0], d);
      FirstMatchWins(rules[1..], d, i - 1);
    }
  }

  /** When no rule matches, the result is the default. */
  lemma {:induction false} NoMatchIsDefault(rules: seq<Rule>, d: string)
    requires forall j :: 0 <= j < |rules| ==> !Matches(rules[j], d)
    ensures FirstMatch(rules, d) == DefaultSpecialist
  {
    if rules != [] {
      assert !Matches(rules[0], d);
      NoMatchIsDefault(rules[1..], d);
    }
  }

  /** A name in which no keyword of any rule occurs maps to "General Physician". */
  lemma UnmatchedIsGeneralPhysician(disease: string)
    requires forall j :: 0 <= j < |Rules| ==> !Matches(Rules[j], Lower(disease))
    ensures GetSpecialist(disease) == "General Physician"
  {
    NoMatchIsDefault(Rules, Lower(disease));
  }

  /** Matching ignores letter case: the name is lower-cased before any test. */
  lemma CaseInsensitive(disease: string)
    ensures GetSpecialist(disease) == GetSpecialist(Lower(disease))
  {
    LowerIdempotent(disease);
  }

  /** Any name containing "heart" maps to Cardiologist, although it also contains the ENT keyword "ear". */
  lemma HeartBeatsEar(disease: string)
    requires Contains(Lower(disease), "heart")
    ensures Contains(Lower(disease), "ear") && Matches(Ent, Lower(disease))
    ensures GetSpecialist(disease) == "Cardiologist"
  {
    var d := Lower(disease);
    assert "heart"[1..] == "eart";
    assert Contains("heart", "ear");
    ContainsTransitive(d, "heart", "ear");
    assert Rules[0] == Cardiology;
    FirstMatchWins(Rules, d, 0);
  }

  /** A dermatology keyword wins over an oncology one when no cardiology keyword occurs. */
  lemma SkinBeforeCancer(disease: string, k: string)
    requires k in Dermatology.keywords && Contains(Lower(disease), k)
    requires !Matches(Cardiology, Lower(disease))
    ensures GetSpecialist(disease) == "Dermatologist"
  {
    var d := Lower(disease);
    AnyOccursIff(d, Dermatology.keywords);
    assert Rules[0] == Cardiology && Rules[1] == Dermatology;
    assert Matches(Rules[1], d);
    FirstMatchWins(Rules, d, 1);
    assert FirstMatch(Rules, d) == "Dermatologist";
  }

  /** A name without any of the letters h, d, v, o, m, p contains no cardiology keyword. */
  lemma NotCardiacByLetters(d: string)
    requires 'h' !in d && 'd' !in d && 'v' !in d && 'o' !in d && 'm' !in d && 'p' !in d
    ensures !Matches(Cardiology, d)
  {
    MissingCharNotContained(d, "heart", 'h');
    MissingCharNotContained(d, "cardiac", 'd');
    MissingCharNotContained(d, "valve", 'v');
    MissingCharNotContained(d, "aorta", 'o');
    MissingCharNotContained(d, "coronary", 'o');
    MissingCharNotContained(d, "myocardial", 'm');
    MissingCharNotContained(d, "pericardial", 'p');
    assert Cardiology.keywords == ["heart", "cardiac", "valve", "aorta", "coronary", "myocardial", "pericardial"];
    NoneOccurs(d, Cardiology.keywords);
  }

  // The facts about the text "skin cancer" that decide its specialist.

  lemma SkinCancerIsLowerCase(d: string)
    requires d == "skin cancer"
    ensures Lower(d) == d
  {
  }

  lemma SkinCancerKeywords(d: string)
    requires d == "skin cancer"
    ensures Contains(d, "skin") && Contains(d, "cancer")
  {
    assert OccursAt(d, "cancer", 5);
    ContainsAt(d, "cancer");
  }

  lemma SkinCancerLetters(d: string)
    requires d == "skin cancer"
    ensures 'h' !in d && 'd' !in d && 'v' !in d && 'o' !in d && 'm' !in d && 'p' !in d
  {
  }

  /** "skin cancer" maps to Dermatologist, although it also contains the oncology keyword "cancer". */
  lemma SkinCancerIsDermatology(d: string)
    requires d == "skin cancer"
    ensures Matches(Oncology, Lower(d))
    ensures GetSpecialist(d) == "Dermatologist"
  {
    SkinCancerIsLowerCase(d);
    SkinCancerKeywords(d);
    SkinCancerLetters(d);
    NotCardiacByLetters(d);
    SkinBeforeCancer(d, "skin");
  }

  /**
   * `generate_mapping`: one entry per encoder class, whose value is the
   * specialist chosen for that class.
   */
  method GenerateMapping(classes: seq<string>) returns (mapping: map<string, string>)
    ensures mapping.Keys == set d | d in classes
    ensures forall d :: d in mapping ==> mapping[d] == GetSpecialist(d)
  {
    mapping := map[];
    for i := 0 to |classes|
      invariant mapping.Keys == set d | d in classes[..i]
      invariant forall d :: d in mapping ==> mapping[d] == GetSpecialist(d)
    {
      assert classes[..i + 1] == classes[..i] + [classes[i]];
      mapping := mapping[classes[i] := GetSpecialist(classes[i])];
    }
    assert classes[..|classes|] == classes;
  }

  /** Encoder classes are distinct, so the mapping has exactly as many entries as there are classes. */
  lemma {:induction false} DistinctClassCount(classes: seq<string>)
    requires forall i, j :: 0 <= i < j < |classes| ==> classes[i] != classes[j]
    ensures |set d | d in classes| == |classes|
  {
    if classes != [] {
      var rest := classes[1..];
      DistinctClassCount(rest);
      assert (set d | d in classes) == (set d | d in rest) + {classes[0]};
      assert classes[0] !in rest;
    }
  }

}
