/** The prompt sent to the chat model (rag-local-api/config/prompt_template.py):
    a constant template with three named holes, filled by `str.format`. */
module PromptTemplate {
  import opened Text

  /** The three named fields of the template. */
  datatype Field = Question | Context | HistoryText

  /** A template is literal text interleaved with named holes. */
  datatype Piece = Lit(text: string) | Hole(field: Field)

  /** The values `build_prompt` passes to `format`. */
  datatype Args = Args(question: string, context: string, historyText: string)

  function Value(args: Args, f: Field): string {
    match f
    case Question => args.question
    case Context => args.context
    case HistoryText => args.historyText
  }

  /** `str.format` with keyword arguments: each hole is replaced by its value,
      literal text is copied, and the substituted values are not scanned again. */
  function Render(template: seq<Piece>, args: Args): string {
    if template == [] then ""
    else
      (match template[0]
       case Lit(t) => t
       case Hole(f) => Value(args, f)) + Render(template[1..], args)
  }

  /** How many times a field occurs as a hole. */
  function Occurrences(template: seq<Piece>, f: Field): nat {
    if template == [] then 0
    else (if template[0] == Hole(f) then 1 else 0) + Occurrences(template[1..], f)
  }

  const LeadIn := "Responde en español"
  const Rule := "--------------------"
  const ContextHeading := "INFORMACION RELEVANTE:\n"

  /** The rest of the template's first line and the rule under it. */
  const IntroRest :=
    " utilizando la información de la sección 'INFORMACION RELEVANTE' y apoyate con el 'HISTORIAL DE LA CONVERSACION' para mantener el hilo de la conversación." + "\n" +
    Rule + "\n"

  /** The template text before `{context}`. */
  const Opening := LeadIn + IntroRest + ContextHeading

  /** The instructions, the examples and the history heading, after the rule that
      follows `{context}`. */
  const Instructions :=
      "INSTRUCCIONES:\n" +
      "- No uses frases como: \"Según el contexto\" o \"Según el documento\".\n" +
      "- Puedes incluir detalles adicionales **que estén directamente relacionados con la pregunta** y ayuden a entender o completar la respuesta (por ejemplo, si se pregunta por el banco de destino, también puedes incluir el número de cuenta, el tipo de cuenta y el nombre del titular si están disponibles).\n" +
      "- Si la pregunta se refiere a una deuda, compromiso o situación previamente mencionada en el documento fuente, **proporciona todos los detalles clave disponibles que la describan, incluyendo montos, periodos, servicios prestados o las causas específicas, en lugar de solo referenciarla.** Evita usar frases como \"anteriormente descrita\" o \"previamente adeudada\" si puedes dar la explicación o el detalle completo directamente.\n" +
      "- No incluyas información que no esté claramente relacionada con la consulta.\n" +
      "- No inventes ni asumas datos. Usa **solo lo que aparece en la 'INFORMACION RELEVANTE' y el 'HISTORIAL DE LA CONVERSACION' si es necesario para entender la pregunta.**\n" +
      "- Si no hay suficiente información para responder con precisión, responde: \"No cuento con información precisa para responder a tu pregunta.\"\n" +
      "- Antes de señalar características, primero menciona el nombre. Por ejemplo, si preguntan por el plato más caro, primero menciona el nombre y precio, y luego la descripción si aplica.\n" +
      "--------------------\n" +
      "EJEMPLOS:\n" +
      "Pregunta: ¿Cuál es el desayuno mas barato?\n" +
      "Respuesta:\n" +
      "1. Desayuno Continental - $11.000\n" +
      "Café, chocolate o té, Porción de fruta o Jugo de naranja,\n" +
      "pan, mantequilla y mermelada.\n" +
      "\n" +
      "Pregunta: ¿Cuáles son los platos principales y sus precios en el menú?\n" +
      "Respuesta:\n" +
      "1. Pollo a la parrilla - $25,000\n" +
      "2. Lomo saltado - $30,000\n" +
      "3. Ceviche mixto - $28,000\n" +
      "\n" +
      "--------------------\n" +
      "HISTORIAL DE LA CONVERSACION:\n" +
      ""

  /** The template text between `{context}` and `{history_text}`. */
  const Middle := "\n" + Rule + "\n" + Instructions

  /** The template text between `{history_text}` and `{question}`. */
  const QuestionLead := "\n\nTeniendo en cuenta lo anterior responde esto: "

  /** The triple-quoted literal as written: it opens with a newline and closes with
      one after `{question}`. */
  const RawTemplate := [Lit("\n" + Opening), Hole(Context), Lit(Middle), Hole(HistoryText),
                        Lit(QuestionLead), Hole(Question), Lit("\n")]

  /** `.strip()` of the literal: leading whitespace goes from its first piece and
      trailing whitespace from its last one (the holes are not whitespace). */
  function StripTemplate(t: seq<Piece>): seq<Piece>
    requires |t| >= 2 && t[0].Lit? && t[|t| - 1].Lit?
  {
    [Lit(LStrip(t[0].text))] + t[1..|t| - 1] + [Lit(RStrip(t[|t| - 1].text))]
  }

  /** `PROMPT_TEMPLATE`. */
  const Template := StripTemplate(RawTemplate)

  /** `build_prompt(question, context, history_text)`. */
  function BuildPrompt(question: string, context: string, historyText: string): string {
    Render(Template, Args(question, context, historyText))
  }

  /** Stripping a template of the shape of the literal, whose text after the opening
      newline starts with a non-space character, removes exactly the two newlines. */
  lemma StripShape(o: string, m: string, q: string)
    requires o != [] && !IsPySpace(o[0])
    ensures StripTemplate([Lit("\n" + o), Hole(Context), Lit(m), Hole(HistoryText),
                           Lit(q), Hole(Question), Lit("\n")]) ==
            [Lit(o), Hole(Context), Lit(m), Hole(HistoryText), Lit(q), Hole(Question), Lit("")]
  {
    var t := [Lit("\n" + o), Hole(Context), Lit(m), Hole(HistoryText), Lit(q), Hole(Question), Lit("\n")];
    var first := "\n" + o;
    assert first[1..] == o;
    assert LStrip(first) == o;
    assert RStrip("\n") == "";
    assert t[1..|t| - 1] == [Hole(Context), Lit(m), Hole(HistoryText), Lit(q), Hole(Question)];
  }

  /** Stripping removes exactly the opening newline and the closing one. */
  lemma {:induction false} TemplateShape()
    ensures Template == [Lit(Opening), Hole(Context), Lit(Middle), Hole(HistoryText),
                         Lit(QuestionLead), Hole(Question), Lit("")]
  {
    assert Opening[0] == 'R';
    StripShape(Opening, Middle, QuestionLead);
  }

  /** Filling a template copies a leading literal. */
  lemma RenderLit(text: string, rest: seq<Piece>, args: Args)
    ensures Render([Lit(text)] + rest, args) == text + Render(rest, args)
  {
    assert ([Lit(text)] + rest)[1..] == rest;
  }

  /** Filling a template substitutes a leading hole. */
  lemma RenderHole(f: Field, rest: seq<Piece>, args: Args)
    ensures Render([Hole(f)] + rest, args) == Value(args, f) + Render(rest, args)
  {
    assert ([Hole(f)] + rest)[1..] == rest;
  }

  /** Filling a template of the shape of `PROMPT_TEMPLATE` copies its three literal
      parts and its three values in order. */
  lemma {:induction false} RenderShape(a: string, b: string, d: string, args: Args)
    ensures Render([Lit(a), Hole(Context), Lit(b), Hole(HistoryText), Lit(d), Hole(Question), Lit("")], args) ==
            a + args.context + b + args.historyText + d + args.question
  {
    var t6: seq<Piece> := [Lit("")];
    var t5 := [Hole(Question)] + t6;
    var t4 := [Lit(d)] + t5;
    var t3 := [Hole(HistoryText)] + t4;
    var t2 := [Lit(b)] + t3;
    var t1 := [Hole(Context)] + t2;
    var t0 := [Lit(a)] + t1;
    RenderLit("", [], args);
    assert t6 == [Lit("")] + [];
    RenderHole(Question, t6, args);
    RenderLit(d, t5, args);
    RenderHole(HistoryText, t4, args);
    RenderLit(b, t3, args);
    RenderHole(Context, t2, args);
    RenderLit(a, t1, args);
    assert t0 == [Lit(a), Hole(Context), Lit(b), Hole(HistoryText), Lit(d), Hole(Question), Lit("")];
  }

  /** The prompt is the opening text, the context, the instructions, the history,
      the question lead-in and the question, each value copied verbatim. */
  lemma BuildPromptLayout(question: string, context: string, historyText: string)
    ensures BuildPrompt(question, context, historyText) ==
            Opening + context + Middle + historyText + QuestionLead + question
  {
    TemplateShape();
    RenderShape(Opening, Middle, QuestionLead, Args(question, context, historyText));
  }

  lemma {:induction false} OccurrencesShape(a: string, b: string, d: string, f: Field)
    ensures Occurrences([Lit(a), Hole(Context), Lit(b), Hole(HistoryText), Lit(d), Hole(Question), Lit("")], f) == 1
  {
    var t := [Lit(a), Hole(Context), Lit(b), Hole(HistoryText), Lit(d), Hole(Question), Lit("")];
    assert Occurrences(t[7..], f) == 0;
    assert Occurrences(t[6..], f) == 0;
    assert Occurrences(t[5..], f) == if f == Question then 1 else 0;
    assert Occurrences(t[3..], f) == if f == Context then 0 else 1;
    assert Occurrences(t[1..], f) == 1;
  }

  /** Each of the three fields is a hole of the template exactly once. */
  lemma EachFieldOnce(f: Field)
    ensures Occurrences(Template, f) == 1
  {
    TemplateShape();
    OccurrencesShape(Opening, Middle, QuestionLead, f);
  }

  /** Where each part of a text laid out like the prompt begins and ends. */
  lemma {:induction false} LayoutOffsets(lead: string, rest: string, heading: string, c: string,
                                         m: string, h: string, ql: string, q: string)
    ensures var op := lead + rest + heading;
            var p := op + c + m + h + ql + q;
            var hs := |op| + |c| + |m|;
            var qs := hs + |h| + |ql|;
            |p| == qs + |q| &&
            lead <= p &&
            p[|op| - |heading|..|op|] == heading &&
            p[|op|..|op| + |c|] == c &&
            p[hs..hs + |h|] == h &&
            p[qs..] == q
  {
    var op := lead + rest + heading;
    var p := op + c + m + h + ql + q;
    assert p[..|lead|] == lead;
  }

  /** The prompt starts with "Responde en español": the template's leading newline is stripped. */
  lemma PromptStartsWithLeadIn(question: string, context: string, historyText: string)
    ensures LeadIn <= BuildPrompt(question, context, historyText)
  {
    BuildPromptLayout(question, context, historyText);
    LayoutOffsets(LeadIn, IntroRest, ContextHeading, context, Middle, historyText, QuestionLead, question);
  }

  /** The prompt ends with the question exactly, trailing whitespace included,
      because the template was stripped before it was filled. */
  lemma PromptEndsWithQuestion(question: string, context: string, historyText: string)
    ensures var p := BuildPrompt(question, context, historyText);
            |p| >= |question| && p[|p| - |question|..] == question
  {
    BuildPromptLayout(question, context, historyText);
    LayoutOffsets(LeadIn, IntroRest, ContextHeading, context, Middle, historyText, QuestionLead, question);
  }

  /** The context follows the "INFORMACION RELEVANTE:" heading, the history text follows
      the context and the instructions, and the question follows the history text. */
  lemma PromptOrder(question: string, context: string, historyText: string)
    ensures var p := BuildPrompt(question, context, historyText);
            var c := |Opening|;
            var h := c + |context| + |Middle|;
            var q := h + |historyText| + |QuestionLead|;
            |p| == q + |question| &&
            p[c - |ContextHeading|..c] == ContextHeading &&
            p[c..c + |context|] == context &&
            p[h..h + |historyText|] == historyText &&
            p[q..] == question
  {
    BuildPromptLayout(question, context, historyText);
    LayoutOffsets(LeadIn, IntroRest, ContextHeading, context, Middle, historyText, QuestionLead, question);
  }

  /** In a text laid out like the prompt, where the head of the middle part sits. */
  lemma {:induction false} MiddleHeadOffset(op: string, c: string, head: string, ins: string,
                                            h: string, ql: string, q: string)
    ensures var p := op + c + (head + ins) + h + ql + q;
            |p| >= |op| + |c| + |head| && p[|op| + |c|..|op| + |c| + |head|] == head
  {
    var p := op + c + (head + ins) + h + ql + q;
    assert p == (op + c) + head + (ins + h + ql + q);
  }

  /** Right after the context, the prompt has a rule line of its own before the instructions. */
  lemma RuleAfterContext(question: string, context: string, historyText: string)
    ensures var p := BuildPrompt(question, context, historyText);
            var c := |Opening| + |context|;
            |p| >= c + |Rule| + 2 && p[c..c + |Rule| + 2] == "\n" + Rule + "\n"
  {
    BuildPromptLayout(question, context, historyText);
    MiddleHeadOffset(Opening, context, "\n" + Rule + "\n", Instructions, historyText, QuestionLead, question);
  }
}
