/**
 * The beauty-analysis route: one model call with a fixed prompt and a
 * declared result schema, and the same error mapping as the skin route.
 */
module BeautyAnalysisRoute {
  import opened Wrappers
  import opened Json
  import opened AnalysisRoute

  /** The fixed instruction sent with the image. */
  const ServerPrompt: string :=
    "\n" +
    "Analyze the submitted facial image and provide a detailed, human-readable assessment covering:\n" +
    "\n" +
    "1. **Overall Aesthetics & Symmetry**  \n" +
    "   \U{2022} Balance of facial features (eyes, nose, mouth, jawline)  \n" +
    "   \U{2022} Left/right symmetry and any notable asymmetries  \n" +
    "\n" +
    "2. **Skin Quality & Texture**  \n" +
    "   \U{2022} Hydration level, pore visibility, smoothness  \n" +
    "   \U{2022} Presence of fine lines, wrinkles, redness, pigmentation  \n" +
    "\n" +
    "3. **Proportions & Golden Ratio**  \n" +
    "   \U{2022} How well facial proportions align with classical aesthetics  \n" +
    "   \U{2022} Measurements or visual comparisons (e.g. eye-to-eye span, nose-to-chin)  \n" +
    "\n" +
    "4. **Youthfulness Indicators**  \n" +
    "   \U{2022} Firmness, wrinkle depth, fullness of cheeks and lips  \n" +
    "   \U{2022} Signs of aging vs. areas that appear youthful  \n" +
    "\n" +
    "5. **Feature Highlights**  \n" +
    "   \U{2022} Eyes: shape, brightness, under-eye condition  \n" +
    "   \U{2022} Lips: fullness, definition, color tone  \n" +
    "   \U{2022} Jawline & Chin: contour, sharpness, balance  \n" +
    "   \U{2022} Cheekbones: prominence, shadows, lift  \n" +
    "\n" +
    "Example Structure (values are illustrative):\n" +
    "{\n" +
    "  \"overall\": 88, \"symmetry\": 92, \"skinHealth\": 85, \"proportion\": 87, \"youthfulness\": 90, \"goldenRatio\": 91, \"lips\": 85, \"eyes\": 90, \"nose\": 88, \"jawline\": 86, \"cheekbones\": 89, \"firmness\": 91, \"wrinkles\": 94, \"eyeArea\": 89, \"skinTone\": 86, \"facialVolume\": 87, \"goldenRatioEyeToEye\": 95, \"goldenRatioNoseToChin\": 92, \"goldenRatioLipsToChin\": 90, \"goldenRatioForehead\": 89, \"symmetryEyeLevelDiff_mm\": 0.8, \"symmetryNoseAngle_deg\": 1.1, \"symmetryLipCornerDiff_mm\": 0.4, \"symmetryJawlineBalance\": 93\n" +
    "}\n" +
    "\n" +
    "CRITICAL: Ensure the output contains ONLY the JSON object and nothing else. No introductory text, no explanations, no markdown formatting (like wrapping in triple backticks).\n"

  /** The route sends one prompt. */
  datatype BeautyPrompt = Assessment

  /** The exact text the prompt sends. */
  function PromptText(p: BeautyPrompt): string
  {
    ServerPrompt
  }

  /** `Type.Integer` without bounds: only integrality is declared. */
  const Int: Schema := SInteger(None, None)

  /** beautyAnalysisSchema: 24 required properties, three of them measurements that need not be integers. */
  const BeautyAnalysisSchema: Schema := SObject([
    Property("overall", Int, false),
    Property("symmetry", Int, false),
    Property("skinHealth", Int, false),
    Property("proportion", Int, false),
    Property("youthfulness", Int, false),
    Property("goldenRatio", Int, false),
    Property("lips", Int, false),
    Property("eyes", Int, false),
    Property("nose", Int, false),
    Property("jawline", Int, false),
    Property("cheekbones", Int, false),
    Property("firmness", Int, false),
    Property("wrinkles", Int, false),
    Property("eyeArea", Int, false),
    Property("skinTone", Int, false),
    Property("facialVolume", Int, false),
    Property("goldenRatioEyeToEye", Int, false),
    Property("goldenRatioNoseToChin", Int, false),
    Property("goldenRatioLipsToChin", Int, false),
    Property("goldenRatioForehead", Int, false),
    Property("symmetryEyeLevelDiff_mm", SNumber, false),
    Property("symmetryNoseAngle_deg", SNumber, false),
    Property("symmetryLipCornerDiff_mm", SNumber, false),
    Property("symmetryJawlineBalance", Int, false)
  ])

  /** The 21 score properties, declared as integers. */
  const IntegerScores: seq<string> := [
    "overall", "symmetry", "skinHealth",
    "proportion", "youthfulness", "goldenRatio",
    "lips", "eyes", "nose",
    "jawline", "cheekbones", "firmness",
    "wrinkles", "eyeArea", "skinTone",
    "facialVolume", "goldenRatioEyeToEye", "goldenRatioNoseToChin",
    "goldenRatioLipsToChin", "goldenRatioForehead",
    "symmetryJawlineBalance"
  ]

  /** The three measurements (millimetres and degrees), declared as numbers. */
  const Measurements: seq<string> := [
    "symmetryEyeLevelDiff_mm", "symmetryNoseAngle_deg", "symmetryLipCornerDiff_mm"
  ]

  predicate IntegerMember(j: Json, name: string)
    requires j.JObject?
  {
    var v := Lookup(j.members, name);
    v.Some? && v.value.JNumber? && IsInteger(v.value.n)
  }

  predicate NumberMember(j: Json, name: string)
    requires j.JObject?
  {
    var v := Lookup(j.members, name);
    v.Some? && v.value.JNumber?
  }

  /** A beauty result written out: an object with every score an integer and every measurement a number. */
  predicate BeautyResultShape(j: Json)
  {
    && j.JObject?
    && (forall k :: 0 <= k < |IntegerScores| ==> IntegerMember(j, IntegerScores[k]))
    && (forall k :: 0 <= k < |Measurements| ==> NumberMember(j, Measurements[k]))
  }

  /**
   * The schema's property list, read by position: the first twenty and the
   * last are integer scores, the three in between are measurements.
   */
  lemma SchemaLayout()
    ensures |BeautyAnalysisSchema.props| == 24 && |IntegerScores| == 21 && |Measurements| == 3
    ensures forall k :: 0 <= k < 20 ==> BeautyAnalysisSchema.props[k] == Property(IntegerScores[k], Int, false)
    ensures forall k :: 0 <= k < 3 ==> BeautyAnalysisSchema.props[20 + k] == Property(Measurements[k], SNumber, false)
    ensures BeautyAnalysisSchema.props[23] == Property(IntegerScores[20], Int, false)
  {
  }

  /** A value conforms to beautyAnalysisSchema exactly when it has the beauty result's shape. */
  lemma SchemaMeansShape(j: Json)
    ensures Conforms(j, BeautyAnalysisSchema) <==> BeautyResultShape(j)
  {
    SchemaLayout();
    var props := BeautyAnalysisSchema.props;
    if Conforms(j, BeautyAnalysisSchema) {
      forall k | 0 <= k < |IntegerScores| ensures IntegerMember(j, IntegerScores[k]) {
        var index := if k < 20 then k else 23;
        RequiredProperty(j, props, index);
      }
      forall k | 0 <= k < |Measurements| ensures NumberMember(j, Measurements[k]) {
        RequiredProperty(j, props, 20 + k);
      }
    }
    if BeautyResultShape(j) {
      forall k | 0 <= k < |props|
        ensures match Lookup(j.members, props[k].name)
                case None => props[k].optional
                case Some(v) => Conforms(v, props[k].schema)
      {
        if k < 20 {
          assert IntegerMember(j, IntegerScores[k]);
        } else if k < 23 {
          assert NumberMember(j, Measurements[k - 20]);
        } else {
          assert IntegerMember(j, IntegerScores[20]);
        }
      }
    }
  }

  /** The only call: the prompt and the image, asking for JSON in the beauty schema. */
  function BeautyRequest(file: UploadedFile): (r: GenRequest<BeautyPrompt>)
    ensures r.model == ModelName && r.role == "user"
    ensures r.config == Some(GenConfig(JsonMimeType, BeautyAnalysisSchema))
    ensures r.parts == [TextPart(Assessment), InlineData(file.mimeType, file.content)]
  {
    ImageRequest(Assessment, file, Some(GenConfig(JsonMimeType, BeautyAnalysisSchema)))
  }

  /**
   * POST /api/beauty-analysis. `service` answers the generateContent call and
   * `parse` is JSON.parse; `calls` lists the calls made.
   */
  method Post(form: FormData, service: GenRequest<BeautyPrompt> -> CallOutcome, parse: string -> Option<Json>)
    returns (response: HttpResponse, calls: seq<GenRequest<BeautyPrompt>>)
    ensures IsFalsy(FormGet(form, ImageField)) ==> response == BadRequest() && calls == []
    ensures var v := FormGet(form, ImageField);
      !IsFalsy(v) && v.value.TextValue? ==> response == Uncaught && calls == []
    ensures var v := FormGet(form, ImageField);
      v.Some? && v.value.FileValue? ==>
        calls == [BeautyRequest(v.value.file)] && response == Settle(service(BeautyRequest(v.value.file)), parse)
  {
    var value := FormGet(form, ImageField);
    if IsFalsy(value) {
      return BadRequest(), [];
    }
    if value.value.TextValue? {
      // `file.arrayBuffer` is not a function on a string: a TypeError outside the try block.
      return Uncaught, [];
    }
    var request := BeautyRequest(value.value.file);
    calls := [request];
    var outcome := service(request);
    if outcome.Threw? {
      return ServerError(outcome.message), calls;
    }
    if outcome.text.None? || outcome.text.value == "" {
      return ServerError(EmptyResponseMessage), calls;
    }
    var analysisResult := parse(outcome.text.value);
    if analysisResult.None? {
      return ServerError(InvalidJsonMessage), calls;
    }
    response := JsonResponse(200, analysisResult.value);
  }
}
