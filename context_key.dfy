/** The context (state) key under which actions are scored: a keyword domain
    classifier and a case-normalised composite key builder. */
module ContextKey {
  import opened Text

  const RentDispute: string := "rent_dispute"
  const FamilyLaw: string := "family_law"
  const EmploymentLaw: string := "employment_law"
  const GeneralLegal: string := "general_legal"

  /** The fixed separator between the parts of a state key. */
  const Separator: char := '|'

  predicate MentionsRent(text: string) {
    Contains(text, "rent") || Contains(text, "tenant") || Contains(text, "landlord")
  }

  predicate MentionsFamily(text: string) {
    Contains(text, "divorce") || Contains(text, "marriage")
  }

  predicate MentionsEmployment(text: string) {
    Contains(text, "job") || Contains(text, "salary") || Contains(text, "termination")
  }

  /** Keyword classification of free text, checked in a fixed precedence:
      rent, then family, then employment, else general. */
  function ClassifyDomain(text: string): (category: string)
    ensures category in {RentDispute, FamilyLaw, EmploymentLaw, GeneralLegal}
    ensures category == RentDispute <==> MentionsRent(Lower(text))
    ensures category == FamilyLaw <==> !MentionsRent(Lower(text)) && MentionsFamily(Lower(text))
    ensures category == EmploymentLaw <==>
      !MentionsRent(Lower(text)) && !MentionsFamily(Lower(text)) && MentionsEmployment(Lower(text))
    ensures category == GeneralLegal <==>
      !MentionsRent(Lower(text)) && !MentionsFamily(Lower(text)) && !MentionsEmployment(Lower(text))
  {
    var t := Lower(text);
    if MentionsRent(t) then RentDispute
    else if MentionsFamily(t) then FamilyLaw
    else if MentionsEmployment(t) then EmploymentLaw
    else GeneralLegal
  }

  /** `domain|user_type|region`, lower-cased. */
  function BuildStateKey(userType: string, region: string, domain: string): (key: string)
    ensures Lower(key) == key
    ensures |key| == |domain| + |userType| + |region| + 2
  {
    Lower(domain + [Separator] + userType + [Separator] + region)
  }

  /** The classifier ignores letter case. */
  lemma ClassifyIgnoresCase(text: string, text': string)
    requires Lower(text) == Lower(text')
    ensures ClassifyDomain(text) == ClassifyDomain(text')
  {
  }

  /** Keys are case-insensitive: inputs that differ only in letter case
      produce the same key. */
  lemma StateKeyIgnoresCase(u: string, r: string, d: string, u': string, r': string, d': string)
    requires Lower(u) == Lower(u') && Lower(r) == Lower(r') && Lower(d) == Lower(d')
    ensures BuildStateKey(u, r, d) == BuildStateKey(u', r', d')
  {
    LowerJoin(u, r, d);
    LowerJoin(u', r', d');
  }

  /** Case-folding a key is folding each part: the separator is not a letter. */
  lemma LowerJoin(u: string, r: string, d: string)
    ensures BuildStateKey(u, r, d) == Lower(d) + [Separator] + (Lower(u) + [Separator] + Lower(r))
  {
    LowerAppend(d + [Separator] + u + [Separator], r);
    LowerAppend(d + [Separator] + u, [Separator]);
    LowerAppend(d + [Separator], u);
    LowerAppend(d, [Separator]);
    var lu, lr, ld := Lower(u), Lower(r), Lower(d);
    assert ld + [Separator] + lu + [Separator] + lr == ld + [Separator] + (lu + [Separator] + lr);
  }

  /** When no part contains the separator, the key determines each part up to
      letter case: distinct contexts get distinct keys. */
  lemma StateKeyDeterminesParts(u: string, r: string, d: string, u': string, r': string, d': string)
    requires Separator !in u && Separator !in d && Separator !in u' && Separator !in d'
    requires BuildStateKey(u, r, d) == BuildStateKey(u', r', d')
    ensures Lower(u) == Lower(u') && Lower(r) == Lower(r') && Lower(d) == Lower(d')
  {
    LowerJoin(u, r, d);
    LowerJoin(u', r', d');
    LowerKeepsNonLetter(u, Separator);
    LowerKeepsNonLetter(d, Separator);
    LowerKeepsNonLetter(u', Separator);
    LowerKeepsNonLetter(d', Separator);
    var lu, lr, ld := Lower(u), Lower(r), Lower(d);
    var lu', lr', ld' := Lower(u'), Lower(r'), Lower(d');
    SplitAtSeparator(ld, lu + [Separator] + lr, ld', lu' + [Separator] + lr', Separator);
    SplitAtSeparator(lu, lr, lu', lr', Separator);
  }

  /** Without that condition keys collide: a separator inside a part is
      indistinguishable from the separator between parts. */
  lemma StateKeySeparatorCollision()
    ensures BuildStateKey("tenant|owner", "in", "rent_dispute") == BuildStateKey("tenant", "owner|in", "rent_dispute")
  {
  }

  /** Classification is by substring, not by word: "parent" mentions "rent",
      and rent keywords take precedence over family ones. */
  lemma ClassifyBySubstring()
    ensures ClassifyDomain("Divorce from my parent") == RentDispute
  {
    var t := Lower("Divorce from my parent");
    assert OccursAt(t, "rent", 18);
  }
}
