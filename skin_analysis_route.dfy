/**
 * The skin-analysis route: the prompt templates, the two closed label lists,
 * the declared result schema, and the three-pass POST handler.
 */
module SkinAnalysisRoute {
  import opened Wrappers
  import opened Json
  import opened JsString
  import opened AnalysisRoute

  /** The first-pass instruction (general findings). */
  const ServerPrompt: string :=
    "\n" +
    "You are a dermatologic image/text analysis assistant. Analyze the provided description or image of a skin area.\n" +
    "\n" +
    "            **First, determine if the description primarily indicates normal, healthy skin or if it highlights specific skin findings (e.g., dark circles, blackheads, pimples, fine lines).**\n" +
    "\n" +
    "            **A. If the description indicates primarily normal skin with no significant findings:**\n" +
    "                - State this clearly (e.g., \"The described skin appears within normal limits and healthy.\").\n" +
    "                - Provide a brief summary of its appearance based on the input, if details are given (e.g., \"even tone, smooth texture, no visible lesions noted\").\n" +
    "                - Do not proceed with the detailed feature analysis (points 1-5 below) or differential diagnoses.\n" +
    "                - Conclude your response here.\n" +
    "\n" +
    "            **B. If specific skin findings *are* described:**\n" +
    "                Analyze and report the following standardized features for *each* finding:\n" +
    "\n" +
    "                1.  **Location & Distribution**\n" +
    "                    - Exact anatomical site(s) (e.g., under both eyes, forehead, cheeks)\n" +
    "                    - Number (single vs. multiple) and pattern (e.g., bilateral symmetric, clustered, linear) :contentReference[oaicite:0]{index=0}\n" +
    "\n" +
    "                2.  **Morphology**\n" +
    "                    - Primary shape/form (e.g., macule, papule, patch, comedone)\n" +
    "                    - Size (in mm or descriptive: small, medium, large)\n" +
    "                    - Color (e.g., brown, erythematous, bluish\U{2011}gray) :contentReference[oaicite:1]{index=1}\n" +
    "                    - Border definition (well\U{2011}circumscribed vs. ill\U{2011}defined)\n" +
    "\n" +
    "                3.  **Texture & Surface Characteristics**\n" +
    "                    - Smooth, rough, scaly, crusted, depressed, elevated :contentReference[oaicite:2]{index=2}\n" +
    "                    - Presence of secondary changes (e.g., scaling, excoriations, lichenification)\n" +
    "\n" +
    "                4.  **Associated Features**\n" +
    "                    - Surrounding erythema or edema\n" +
    "                    - Vascular signs (e.g., telangiectasias, purpura)\n" +
    "                    - Pigmentary changes beyond primary lesion (e.g., halo, post\U{2011}inflammatory hyperpigmentation)\n" +
    "\n" +
    "                5.  **Contextual & Severity Assessment**\n" +
    "                    - Subjective symptoms if known (e.g., itching, pain)\n" +
    "                    - Severity grading (mild/moderate/severe)\n" +
    "                    - Impact on appearance (e.g., contrast with surrounding skin tone, visibility in ambient lighting)\n" +
    "\n" +
    "                Finally, *after analyzing the findings according to the points above*, provide a concise summary of your observations in layman\U{2019}s terms. If applicable, list the top 2\U{2013}3 differential considerations for this finding. Also, state the most likely name of the skin disease/cosmetic concern/clinical sign in one or two words if possible.\n" +
    "                \n"

  /** The second-pass instruction: the same request, worded and indented differently. */
  const ServerPrompt2: string :=
    "\n" +
    "You are a dermatologic image/text analysis assistant. Analyze the provided description or image of a skin area.\n" +
    "\n" +
    "**First, determine if the description primarily indicates normal, healthy skin or if it highlights specific skin findings (e.g., dark circles, blackheads, pimples, fine lines).**\n" +
    "\n" +
    "**A. If the description indicates primarily normal skin with no significant findings:**\n" +
    "    - State this clearly (e.g., \"The described skin appears within normal limits and healthy.\").\n" +
    "    - Provide a brief summary of its appearance based on the input, if details are given (e.g., \"even tone, smooth texture, no visible lesions noted\").\n" +
    "    - Do not proceed with the detailed feature analysis (points 1-5 below) or differential diagnoses.\n" +
    "    - Conclude your response here.\n" +
    "\n" +
    "**B. If specific skin findings *are* described:**\n" +
    "    Analyze and report the following standardized features for *each* finding:\n" +
    "\n" +
    "    1.  **Location & Distribution**\n" +
    "        - Exact anatomical site(s) (e.g., under both eyes, forehead, cheeks)\n" +
    "        - Number (single vs. multiple) and pattern (e.g., bilateral symmetric, clustered, linear) :contentReference[oaicite:0]{index=0}\n" +
    "\n" +
    "    2.  **Morphology**\n" +
    "        - Primary shape/form (e.g., macule, papule, patch, comedone)\n" +
    "        - Size (in mm or descriptive: small, medium, large)\n" +
    "        - Color (e.g., brown, erythematous, bluish\U{2011}gray) :contentReference[oaicite:1]{index=1}\n" +
    "        - Border definition (well\U{2011}circumscribed vs. ill\U{2011}defined)\n" +
    "\n" +
    "    3.  **Texture & Surface Characteristics**\n" +
    "        - Smooth, rough, scaly, crusted, depressed, elevated :contentReference[oaicite:2]{index=2}\n" +
    "        - Presence of secondary changes (e.g., scaling, excoriations, lichenification)\n" +
    "\n" +
    "    4.  **Associated Features**\n" +
    "        - Surrounding erythema or edema\n" +
    "        - Vascular signs (e.g., telangiectasias, purpura)\n" +
    "        - Pigmentary changes beyond primary lesion (e.g., halo, post\U{2011}inflammatory hyperpigmentation)\n" +
    "\n" +
    "    5.  **Contextual & Severity Assessment**\n" +
    "        - Subjective symptoms if known (e.g., itching, pain)\n" +
    "        - Severity grading (mild/moderate/severe)\n" +
    "        - Impact on appearance (e.g., contrast with surrounding skin tone, visibility in ambient lighting)\n" +
    "\n" +
    "    Finally, *after analyzing the findings according to the points above*, provide a concise summary of your observations in layman\U{2019}s terms. If applicable, list the top 2\U{2013}3 differential considerations for this finding. Also, state the most likely name of the skin disease/cosmetic concern/clinical sign in one or two words if possible.\n"

  /** The closed list of cosmetic signs the final pass is told to choose from. */
  const CosmeticSigns: seq<string> := [
    "dark circles",
    "puffiness",
    "under-eye wrinkles",
    "dark spots",
    "age spots",
    "hyperpigmentation",
    "acne",
    "blackheads",
    "whiteheads",
    "pustules",
    "papules",
    "cysts",
    "comedones",
    "fungal acne",
    "keratosis pilaris",
    "milia",
    "moles",
    "dermatosis papulosa nigra",
    "skin tags",
    "enlarged pores"
  ]

  /** The closed list of skin diseases the final pass is told to choose from. */
  const SkinDiseases: seq<string> := [
    "impetigo",
    "cellulitis",
    "herpes simplex",
    "herpes zoster",
    "tinea corporis",
    "scabies",
    "molluscum contagiosum",
    "psoriasis",
    "atopic dermatitis",
    "seborrheic dermatitis",
    "lichen planus",
    "systemic lupus erythematosus",
    "dermatitis herpetiformis",
    "vitiligo",
    "melanoma",
    "basal cell carcinoma",
    "squamous cell carcinoma",
    "seborrheic keratosis",
    "acne vulgaris",
    "rosacea",
    "alopecia areata",
    "actinic keratosis",
    "keratosis pilaris",
    "urticaria"
  ]

  // The third-pass template, cut at its interpolations. The template literal
  // starts with TemplateLead and ends with TemplateTail, which `.trim()` drops.
  // The first word and the final full stop are separate literals so that the
  // ends of the trimmed prompt can be read off.
  const TemplateLead: string := "\n  "
  const TemplatePiece1: string :=
    "Examine" + " the provided high-resolution facial image and evaluate signs for **"
  const TemplatePiece2: string := "** versus **"
  const TemplatePiece3: string :=
    "**. \n" +
    "  For each of the two " +
    "conditions, provide " +
    "a concise narrative " +
    "analysis **and** a confidence " +
    "score from **1\U{2013}100** " +
    "covering these aspects:\n" +
    "  \n" +
    "  1. Lesion morphology " +
    "(shape, size, border " +
    "definition)  \n" +
    "  2. Color and surface " +
    "texture  \n" +
    "  3. Distribution and " +
    "symmetry (across forehead, " +
    "cheeks, perioral area, " +
    "etc.)  \n" +
    "  4. Hallmark features " +
    "that support or contradict " +
    "the diagnosis  \n" +
    "  5. Severity assessment " +
    "(\U{201C}Mild,\U{201D} \U{201C}Moderate,\U{201D} " +
    "or \U{201C}Severe\U{201D})  \n" +
    "  \n" +
    "  Then:\n" +
    "  \n" +
    "  6. State which condition " +
    "(**"
  const TemplatePiece4: string := "** or **"
  const TemplatePiece5: string :=
    "**) is more likely, " +
    "with a final confidence " +
    "score (1\U{2013}100).  \n" +
    "  7. For the chosen " +
    "condition, list up to " +
    "three **remedies** in " +
    "JSON form, each including:\n" +
    "     - name  \n" +
    "     - ingredients (array " +
    "of strings)  \n" +
    "     - instructions " +
    " \n" +
    "     - benefits  \n" +
    "     - optional image " +
    "URL  \n" +
    "  \n" +
    "  The diagnosed skin " +
    "condition should be " +
    "among these: "
  const TemplatePiece6: string :=
    "  \n" +
    "  and the diagnosed " +
    "cosmetic signs should " +
    "be among these: "
  const TemplatePiece7: string :=
    "  \n" +
    "  If the detected final " +
    "diagnosis is \U{201C}normal,\U{201D} " +
    "say \U{201C}healthy skin\U{201D}; " +
    "if it\U{2019}s not in the lists " +
    "provided, say \U{201C}unknown.\U{201D}\n" +
    "  \n" +
    "  **Output format** " +
    "(narrative for steps " +
    "1\U{2013}5; JSON for step 7). " +
    "No extra commentary" +
    "."
  const TemplateTail: string := "\n    "

  /** The raw third-pass template literal, before `.trim()`. */
  function PromptTemplate(disease1: string, disease2: string, skinDiseases: seq<string>, cosmeticSigns: seq<string>): string
  {
    TemplateLead + PromptBody(disease1, disease2, skinDiseases, cosmeticSigns) + TemplateTail
  }

  function PromptBody(disease1: string, disease2: string, skinDiseases: seq<string>, cosmeticSigns: seq<string>): string
  {
    FillTemplate(TemplatePiece1, TemplatePiece2, TemplatePiece3, TemplatePiece4, TemplatePiece5, TemplatePiece6, TemplatePiece7,
                 disease1, disease2, StringifyStrings(skinDiseases), StringifyStrings(cosmeticSigns))
  }

  /** The template's shape: d1 and d2 each appear twice, then the two encoded lists. */
  function FillTemplate(p1: string, p2: string, p3: string, p4: string, p5: string, p6: string, p7: string,
                        d1: string, d2: string, x: string, y: string): string
  {
    p1 + d1 + p2 + d2 + p3 + d1 + p4 + d2 + p5 + x + p6 + y + p7
  }

  /** completeSkinAnalysisPrompt: the template with its four interpolations, trimmed. */
  function CompleteSkinAnalysisPrompt(disease1: string, disease2: string, skinDiseases: seq<string>, cosmeticSigns: seq<string>): string
  {
    Trim(PromptTemplate(disease1, disease2, skinDiseases, cosmeticSigns))
  }

  /**
   * Any filling of the template, framed by blanks, trims to the filling when
   * its first and last pieces begin and end with non-blanks.
   */
  lemma FilledTemplateTrims(lead: string, p1: string, p2: string, p3: string, p4: string, p5: string, p6: string,
                            p7: string, tail: string, d1: string, d2: string, x: string, y: string)
    requires forall i :: 0 <= i < |lead| ==> IsJsWhitespace(lead[i])
    requires forall i :: 0 <= i < |tail| ==> IsJsWhitespace(tail[i])
    requires p1 != [] && !IsJsWhitespace(p1[0])
    requires p7 != [] && !IsJsWhitespace(p7[|p7| - 1])
    ensures var body := FillTemplate(p1, p2, p3, p4, p5, p6, p7, d1, d2, x, y);
      Trim(lead + body + tail) == body && body[0] == p1[0] && body[|body| - 1] == p7[|p7| - 1]
  {
    var rest := d1 + p2 + d2 + p3 + d1 + p4 + d2 + p5 + x + p6 + y;
    var body := FillTemplate(p1, p2, p3, p4, p5, p6, p7, d1, d2, x, y);
    assert body == p1 + rest + p7;
    TrimAround(lead, body, tail);
  }

  /** The filling holds every interpolated value and begins with its first piece. */
  lemma FilledTemplateContents(p1: string, p2: string, p3: string, p4: string, p5: string, p6: string, p7: string,
                               d1: string, d2: string, x: string, y: string)
    ensures var body := FillTemplate(p1, p2, p3, p4, p5, p6, p7, d1, d2, x, y);
      && p1 <= body
      && Contains(body, d1) && Contains(body, d2) && Contains(body, x) && Contains(body, y)
  {
    // The filling grows left to right; each value is found where it is added
    // and stays found as the filling grows.
    var s1 := p1 + d1;
    ContainsSelf(d1);
    ContainsExtendLeft(p1, d1, d1);
    assert p1 <= s1;
    var s2 := s1 + p2;        GrowFilling(s1, p2, p1, d1, d1, d1, d1);
    var s3 := s2 + d2;        GrowFilling(s2, d2, p1, d1, d1, d1, d1);
    ContainsSelf(d2);
    ContainsExtendLeft(s2, d2, d2);
    var s4 := s3 + p3;        GrowFilling(s3, p3, p1, d1, d2, d2, d2);
    var s5 := s4 + d1;        GrowFilling(s4, d1, p1, d1, d2, d2, d2);
    var s6 := s5 + p4;        GrowFilling(s5, p4, p1, d1, d2, d2, d2);
    var s7 := s6 + d2;        GrowFilling(s6, d2, p1, d1, d2, d2, d2);
    var s8 := s7 + p5;        GrowFilling(s7, p5, p1, d1, d2, d2, d2);
    var s9 := s8 + x;         GrowFilling(s8, x, p1, d1, d2, d2, d2);
    ContainsSelf(x);
    ContainsExtendLeft(s8, x, x);
    var s10 := s9 + p6;       GrowFilling(s9, p6, p1, d1, d2, x, x);
    var s11 := s10 + y;       GrowFilling(s10, y, p1, d1, d2, x, x);
    ContainsSelf(y);
    ContainsExtendLeft(s10, y, y);
    GrowFilling(s11, p7, p1, d1, d2, x, y);
  }

  /**
   * One step of FilledTemplateContents: appending keeps the first piece in
   * front and the values found so far (a, b, c, e, repeated while fewer are found).
   */
  lemma GrowFilling(s: string, t: string, first: string, a: string, b: string, c: string, e: string)
    requires first <= s
    requires Contains(s, a) && Contains(s, b) && Contains(s, c) && Contains(s, e)
    ensures first <= s + t
    ensures Contains(s + t, a) && Contains(s + t, b) && Contains(s + t, c) && Contains(s + t, e)
  {
    assert (s + t)[..|first|] == s[..|first|];
    ContainsExtendRight(s, t, a);
    ContainsExtendRight(s, t, b);
    ContainsExtendRight(s, t, c);
    ContainsExtendRight(s, t, e);
  }

  /**
   * The trimmed prompt is exactly the template between its leading and
   * trailing blanks: it starts with "Examine", ends with a full stop, and
   * holds both narratives and the JSON encodings of both label lists verbatim.
   */
  /** The blanks around the template, its first word and its final full stop. */
  lemma TemplateEnds()
    ensures TemplateLead == "\n  " && TemplateTail == "\n    "
    ensures forall i :: 0 <= i < |TemplateLead| ==> IsJsWhitespace(TemplateLead[i])
    ensures forall i :: 0 <= i < |TemplateTail| ==> IsJsWhitespace(TemplateTail[i])
    ensures StartsWith(TemplatePiece1, "Examine") && !IsJsWhitespace(TemplatePiece1[0])
    ensures TemplatePiece7 != [] && TemplatePiece7[|TemplatePiece7| - 1] == '.'
  {
  }

  /** The trimmed prompt is exactly the template between its leading and trailing blanks. */
  lemma PromptIsBody(disease1: string, disease2: string, skinDiseases: seq<string>, cosmeticSigns: seq<string>)
    ensures CompleteSkinAnalysisPrompt(disease1, disease2, skinDiseases, cosmeticSigns)
         == PromptBody(disease1, disease2, skinDiseases, cosmeticSigns)
  {
    TemplateEnds();
    FilledTemplateTrims(TemplateLead, TemplatePiece1, TemplatePiece2, TemplatePiece3, TemplatePiece4,
      TemplatePiece5, TemplatePiece6, TemplatePiece7, TemplateTail,
      disease1, disease2, StringifyStrings(skinDiseases), StringifyStrings(cosmeticSigns));
  }

  /**
   * completeSkinAnalysisPrompt's result has nothing left to trim, starts with
   * "Examine", and holds both narratives and the JSON encodings of both label
   * lists verbatim.
   */
  lemma CompletePromptContents(disease1: string, disease2: string, skinDiseases: seq<string>, cosmeticSigns: seq<string>)
    ensures var p := CompleteSkinAnalysisPrompt(disease1, disease2, skinDiseases, cosmeticSigns);
      && Trim(p) == p && StartsWith(p, "Examine")
      && Contains(p, disease1) && Contains(p, disease2)
      && Contains(p, StringifyStrings(skinDiseases)) && Contains(p, StringifyStrings(cosmeticSigns))
  {
    TrimIdempotent(PromptTemplate(disease1, disease2, skinDiseases, cosmeticSigns));
    PromptIsBody(disease1, disease2, skinDiseases, cosmeticSigns);
    TemplateEnds();
    FilledTemplateContents(TemplatePiece1, TemplatePiece2, TemplatePiece3, TemplatePiece4,
      TemplatePiece5, TemplatePiece6, TemplatePiece7,
      disease1, disease2, StringifyStrings(skinDiseases), StringifyStrings(cosmeticSigns));
    StartsWithTrans(PromptBody(disease1, disease2, skinDiseases, cosmeticSigns), TemplatePiece1, "Examine");
  }

  /**
   * The three prompts the route sends: the two fixed first- and second-pass
   * instructions and the differential prompt built from their answers.
   */
  datatype SkinPrompt =
    | FirstPass
    | SecondPass
    | Differential(disease1: string, disease2: string, skinDiseases: seq<string>, cosmeticSigns: seq<string>)

  /** The exact text each prompt sends. */
  function PromptText(p: SkinPrompt): string
  {
    match p
    case FirstPass => ServerPrompt
    case SecondPass => ServerPrompt2
    case Differential(d1, d2, sd, cs) => CompleteSkinAnalysisPrompt(d1, d2, sd, cs)
  }

  /** `text ?? "Unknown response"`: only an undefined text is replaced; "" passes through. */
  function OrUnknown(text: Option<string>): (r: string)
    ensures text.None? ==> r == "Unknown response"
    ensures text.Some? ==> r == text.value
  {
    match text
    case None => "Unknown response"
    case Some(t) => t
  }

  // The declared result schema (SkinAnalysisResultSchema and its parts).

  const Score: Schema := SInteger(Some(0), Some(100))

  const RemedySchema: Schema := SObject([
    Property("name", SString, false),
    Property("ingredients", SArray(SString), false),
    Property("instructions", SString, false),
    Property("benefits", SString, false),
    Property("image", SString, true)
  ])

  const ConditionDetailsSchema: Schema := SObject([
    Property("name", SString, false),
    Property("description", SString, false),
    Property("remedies", SArray(RemedySchema), false)
  ])

  const SkinAnalysisResultSchema: Schema := SObject([
    Property("overall", Score, false),
    Property("hydration", Score, false),
    Property("uvDamage", Score, false),
    Property("wrinkles", Score, false),
    Property("evenness", Score, false),
    Property("texture", Score, false),
    Property("pores", Score, false),
    Property("redness", Score, false),
    Property("acne", Score, false),
    Property("pigmentation", Score, false),
    Property("predictedConditionName", SString, true),
    Property("confidenceScore", Score, false),
    Property("conditionDetails", ConditionDetailsSchema, true)
  ])

  /** The eleven bounded scores of a skin result: the ten skin scores and the confidence score. */
  const ScoreNames: seq<string> := [
    "overall", "hydration", "uvDamage", "wrinkles", "evenness", "texture",
    "pores", "redness", "acne", "pigmentation", "confidenceScore"
  ]

  predicate IntegerMemberIn(j: Json, name: string, lo: int, hi: int)
    requires j.JObject?
  {
    var v := Lookup(j.members, name);
    v.Some? && v.value.JNumber? && IsInteger(v.value.n) && lo as real <= v.value.n <= hi as real
  }

  predicate StringMember(j: Json, name: string)
    requires j.JObject?
  {
    var v := Lookup(j.members, name);
    v.Some? && v.value.JString?
  }

  predicate OptionalStringMember(j: Json, name: string)
    requires j.JObject?
  {
    var v := Lookup(j.members, name);
    v.None? || v.value.JString?
  }

  /** A remedy written out field by field. */
  predicate RemedyShape(r: Json)
  {
    && r.JObject?
    && StringMember(r, "name")
    && (var ing := Lookup(r.members, "ingredients");
        ing.Some? && ing.value.JArray? && forall k :: 0 <= k < |ing.value.items| ==> ing.value.items[k].JString?)
    && StringMember(r, "instructions")
    && StringMember(r, "benefits")
    && OptionalStringMember(r, "image")
  }

  /** The remedy schema says exactly what RemedyShape spells out. */
  lemma RemedySchemaMeans(r: Json)
    ensures Conforms(r, RemedySchema) <==> RemedyShape(r)
  {
    var props := RemedySchema.props;
    if Conforms(r, RemedySchema) {
      assert props[0].name == "name" && props[1].name == "ingredients" && props[2].name == "instructions";
      assert props[3].name == "benefits" && props[4].name == "image";
    }
    if RemedyShape(r) {
      forall k | 0 <= k < |props|
        ensures match Lookup(r.members, props[k].name)
                case None => props[k].optional
                case Some(v) => Conforms(v, props[k].schema)
      {
        assert k == 0 || k == 1 || k == 2 || k == 3 || k == 4;
      }
    }
  }

  /**
   * A value conforming to SkinAnalysisResultSchema has all eleven scores as
   * integers in 0..100; the predicted condition name and the condition details
   * may be absent.
   */
  lemma SkinResultScoresBounded(j: Json)
    requires Conforms(j, SkinAnalysisResultSchema)
    ensures j.JObject?
    ensures forall k :: 0 <= k < |ScoreNames| ==> IntegerMemberIn(j, ScoreNames[k], 0, 100)
    ensures OptionalStringMember(j, "predictedConditionName")
  {
    var props := SkinAnalysisResultSchema.props;
    forall k | 0 <= k < |ScoreNames| ensures IntegerMemberIn(j, ScoreNames[k], 0, 100) {
      var index := if k < 10 then k else 11;
      assert props[index].name == ScoreNames[k];
      RequiredIntegerProperty(j, props, index, 0, 100);
    }
    assert props[10].name == "predictedConditionName";
  }

  /** Every remedy of conforming condition details has the remedy shape. */
  lemma ConditionRemediesShaped(j: Json)
    requires Conforms(j, SkinAnalysisResultSchema)
    requires Lookup(j.members, "conditionDetails").Some?
    ensures var d := Lookup(j.members, "conditionDetails").value;
      d.JObject? && StringMember(d, "name") && StringMember(d, "description")
      && var rs := Lookup(d.members, "remedies");
      rs.Some? && rs.value.JArray? && forall k :: 0 <= k < |rs.value.items| ==> RemedyShape(rs.value.items[k])
  {
    var props := SkinAnalysisResultSchema.props;
    assert props[12].name == "conditionDetails";
    var d := Lookup(j.members, "conditionDetails").value;
    assert Conforms(d, ConditionDetailsSchema);
    var dprops := ConditionDetailsSchema.props;
    assert dprops[0].name == "name" && dprops[1].name == "description" && dprops[2].name == "remedies";
    var rs := Lookup(d.members, "remedies").value;
    assert Conforms(rs, SArray(RemedySchema));
    forall k | 0 <= k < |rs.items| ensures RemedyShape(rs.items[k]) {
      RemedySchemaMeans(rs.items[k]);
    }
  }

  /** The two label lists have 20 and 24 entries and share "keratosis pilaris". */
  lemma LabelListFacts()
    ensures |CosmeticSigns| == 20 && |SkinDiseases| == 24
    ensures "keratosis pilaris" in CosmeticSigns && "keratosis pilaris" in SkinDiseases
  {
    assert CosmeticSigns[14] == "keratosis pilaris";
    assert SkinDiseases[22] == "keratosis pilaris";
  }

  /** The first pass: the first server prompt and the image, no config. */
  function Pass1Request(file: UploadedFile): (r: GenRequest<SkinPrompt>)
    ensures r.model == ModelName && r.role == "user" && r.config.None?
    ensures r.parts == [TextPart(FirstPass), InlineData(file.mimeType, file.content)]
  {
    ImageRequest(FirstPass, file, None)
  }

  /** The second pass: the second server prompt and the same image, no config. */
  function Pass2Request(file: UploadedFile): (r: GenRequest<SkinPrompt>)
    ensures r.model == ModelName && r.role == "user" && r.config.None?
    ensures r.parts == [TextPart(SecondPass), InlineData(file.mimeType, file.content)]
  {
    ImageRequest(SecondPass, file, None)
  }

  /** The final pass: the differential prompt built from the first two texts, asking for JSON in the result schema. */
  function Pass3Request(file: UploadedFile, text1: Option<string>, text2: Option<string>): (r: GenRequest<SkinPrompt>)
    ensures r.model == ModelName && r.role == "user"
    ensures r.config == Some(GenConfig(JsonMimeType, SkinAnalysisResultSchema))
    ensures r.parts == [TextPart(Differential(OrUnknown(text1), OrUnknown(text2), SkinDiseases, CosmeticSigns)),
                        InlineData(file.mimeType, file.content)]
  {
    ImageRequest(Differential(OrUnknown(text1), OrUnknown(text2), SkinDiseases, CosmeticSigns),
                 file, Some(GenConfig(JsonMimeType, SkinAnalysisResultSchema)))
  }

  /**
   * A missing first- or second-pass text still leads to a differential
   * prompt, which holds "Unknown response" in its place.
   */
  lemma MissingTextBecomesUnknown(text1: Option<string>, text2: Option<string>, skinDiseases: seq<string>, cosmeticSigns: seq<string>)
    requires text1.None? || text2.None?
    ensures Contains(CompleteSkinAnalysisPrompt(OrUnknown(text1), OrUnknown(text2), skinDiseases, cosmeticSigns), "Unknown response")
  {
    var d1, d2 := OrUnknown(text1), OrUnknown(text2);
    assert d1 == "Unknown response" || d2 == "Unknown response";
    CompletePromptContents(d1, d2, skinDiseases, cosmeticSigns);
  }

  /** The differential prompt carries each earlier text verbatim, the empty string included. */
  lemma DifferentialCarriesTexts(text1: string, text2: string, skinDiseases: seq<string>, cosmeticSigns: seq<string>)
    ensures var text := CompleteSkinAnalysisPrompt(OrUnknown(Some(text1)), OrUnknown(Some(text2)), skinDiseases, cosmeticSigns);
      Contains(text, text1) && Contains(text, text2)
  {
    CompletePromptContents(text1, text2, skinDiseases, cosmeticSigns);
  }

  /**
   * POST /api/skin-analysis. `service` answers each generateContent call and
   * `parse` is JSON.parse; `calls` lists the calls made, in order.
   */
  method Post(form: FormData, service: GenRequest<SkinPrompt> -> CallOutcome, parse: string -> Option<Json>)
    returns (response: HttpResponse, calls: seq<GenRequest<SkinPrompt>>)
    ensures IsFalsy(FormGet(form, ImageField)) ==> response == BadRequest() && calls == []
    ensures var v := FormGet(form, ImageField);
      !IsFalsy(v) && v.value.TextValue? ==> response == Uncaught && calls == []
    ensures var v := FormGet(form, ImageField);
      v.Some? && v.value.FileValue? ==>
        var f := v.value.file;
        var o1 := service(Pass1Request(f));
        var o2 := service(Pass2Request(f));
        && (o1.Threw? ==> calls == [Pass1Request(f)] && response == ServerError(o1.message))
        && (o1.Responded? && o2.Threw? ==>
              calls == [Pass1Request(f), Pass2Request(f)] && response == ServerError(o2.message))
        && (o1.Responded? && o2.Responded? ==>
              var r3 := Pass3Request(f, o1.text, o2.text);
              calls == [Pass1Request(f), Pass2Request(f), r3] && response == Settle(service(r3), parse))
  {
    var value := FormGet(form, ImageField);
    if IsFalsy(value) {
      return BadRequest(), [];
    }
    if value.value.TextValue? {
      // `file.arrayBuffer` is not a function on a string: a TypeError outside the try block.
      return Uncaught, [];
    }
    var file := value.value.file;

    var request1 := Pass1Request(file);
    calls := [request1];
    var response1 := service(request1);
    if response1.Threw? {
      return ServerError(response1.message), calls;
    }

    var request2 := Pass2Request(file);
    calls := calls + [request2];
    var response2 := service(request2);
    if response2.Threw? {
      return ServerError(response2.message), calls;
    }

    var request3 := Pass3Request(file, response1.text, response2.text);
    calls := calls + [request3];
    var response3 := service(request3);
    if response3.Threw? {
      return ServerError(response3.message), calls;
    }
    if response3.text.None? || response3.text.value == "" {
      return ServerError(EmptyResponseMessage), calls;
    }
    var analysisResult := parse(response3.text.value);
    if analysisResult.None? {
      return ServerError(InvalidJsonMessage), calls;
    }
    response := JsonResponse(200, analysisResult.value);
  }
}
